/**
 The templates table and the update expressions written to it.

 An update expression is a list of SET clauses, a list of REMOVE clauses and two alias maps.
 `Accepted` is what DynamoDB demands of one, `Evaluate` is what it does with one, clause by
 clause.  A `Delta` is the direct record update an expression is meant to be; `Compiles` ties
 the two, and every builder in this project is proved to produce an expression that compiles
 the delta of its arguments.
 */
module UpdateExpressions {
  import opened Calls

  datatype Attr =
    | TemplateId | Slug | Status | UseCaseType | Marketing | Devops | WizardPayload | Ratings
    | CreatedAt | UpdatedAt | PublishedAt | PublishedBy | UnpublishedAt | UnpublishedBy
    | TestingUseCaseId | TestingUseCaseName | TestingDeployStatus | TestingValidatedAt
    | TestingRuntimeUrl | TestingStartedAt | TestingError

  datatype Lifecycle = Draft | InTesting | Published | Archived

  datatype Deploy = Deploying | Active | Failed | Stale

  /** A devops document: the two facts about it the lifecycle asks for, and its text. */
  datatype DevopsDoc = DevopsDoc(orchestrator: bool, valid: bool, json: string)

  datatype Value = Text(text: string) | Stage(stage: Lifecycle) | Test(deploy: Deploy) | Config(devops: DevopsDoc)

  type Item = map<Attr, Value>

  /** A list that grows at its end. */
  datatype List<T> = Nil | Snoc(init: List<T>, last: T)

  /** The part of a placeholder after its '#' or ':'. */
  datatype Tag =
    | Ua | St | Tun | Tuc | Tds | Tru | Terr | Tsa | Tva
    | Mk | Sl | Ut | Dv | Wp | Rt | Pa | Pb | Uua | Uub

  /** One SET clause, '#name = :value'. */
  datatype Clause = Clause(name: Tag, value: Tag)

  datatype Update = Update(sets: List<Clause>, removes: List<Tag>, names: map<Tag, Attr>, values: map<Tag, Value>)

  // ---------- What DynamoDB does with an expression ----------

  ghost function SetNames(sets: List<Clause>): set<Tag> {
    if sets.Nil? then {} else SetNames(sets.init) + {sets.last.name}
  }

  ghost function SetValues(sets: List<Clause>): set<Tag> {
    if sets.Nil? then {} else SetValues(sets.init) + {sets.last.value}
  }

  ghost function RemoveNames(removes: List<Tag>): set<Tag> {
    if removes.Nil? then {} else RemoveNames(removes.init) + {removes.last}
  }

  /** The attributes a list of SET clauses writes. */
  ghost function SetTargets(sets: List<Clause>, names: map<Tag, Attr>): set<Attr>
    requires SetNames(sets) <= names.Keys
  {
    if sets.Nil? then {} else SetTargets(sets.init, names) + {names[sets.last.name]}
  }

  ghost function RemoveTargets(removes: List<Tag>, names: map<Tag, Attr>): set<Attr>
    requires RemoveNames(removes) <= names.Keys
  {
    if removes.Nil? then {} else RemoveTargets(removes.init, names) + {names[removes.last]}
  }

  ghost predicate SetsDistinct(sets: List<Clause>, names: map<Tag, Attr>)
    requires SetNames(sets) <= names.Keys
  {
    sets.Nil? ||
    (names[sets.last.name] !in SetTargets(sets.init, names) && SetsDistinct(sets.init, names))
  }

  ghost predicate RemovesDistinct(removes: List<Tag>, names: map<Tag, Attr>)
    requires RemoveNames(removes) <= names.Keys
  {
    removes.Nil? ||
    (names[removes.last] !in RemoveTargets(removes.init, names) && RemovesDistinct(removes.init, names))
  }

  /**
   The expressions the service does not reject: the alias maps hold exactly the placeholders
   used, no attribute is the target of two clauses, and the key is not written.
   */
  ghost predicate Accepted(u: Update) {
    && u.names.Keys == SetNames(u.sets) + RemoveNames(u.removes)
    && u.values.Keys == SetValues(u.sets)
    && SetsDistinct(u.sets, u.names) && RemovesDistinct(u.removes, u.names)
    && SetTargets(u.sets, u.names) !! RemoveTargets(u.removes, u.names)
    && TemplateId !in SetTargets(u.sets, u.names) + RemoveTargets(u.removes, u.names)
  }

  function EvaluateSets(sets: List<Clause>, names: map<Tag, Attr>, values: map<Tag, Value>, item: Item): Item
    requires SetNames(sets) <= names.Keys && SetValues(sets) <= values.Keys
  {
    if sets.Nil? then item
    else
      var last := sets.last;
      EvaluateSets(sets.init, names, values, item)[names[last.name] := values[last.value]]
  }

  function EvaluateRemoves(removes: List<Tag>, names: map<Tag, Attr>, item: Item): Item
    requires RemoveNames(removes) <= names.Keys
  {
    if removes.Nil? then item
    else EvaluateRemoves(removes.init, names, item) - {names[removes.last]}
  }

  function Evaluate(u: Update, item: Item): Item
    requires Accepted(u)
  {
    EvaluateRemoves(u.removes, u.names, EvaluateSets(u.sets, u.names, u.values, item))
  }

  // ---------- The direct update ----------

  datatype Change = Put(value: Value) | Drop

  type Delta = map<Attr, Change>

  ghost function Apply(d: Delta, item: Item): Item {
    map a | a in d.Keys + item.Keys && (a in d ==> d[a].Put?) :: if a in d then d[a].value else item[a]
  }

  /** The expression is accepted and does to every item what the delta says. */
  ghost predicate Compiles(u: Update, d: Delta) {
    && Accepted(u)
    && SetTargets(u.sets, u.names) + RemoveTargets(u.removes, u.names) == d.Keys
    && forall item: Item :: Evaluate(u, item) == Apply(d, item)
  }

  /** No attribute is both SET and REMOVEd, and every attribute outside the delta is left alone. */
  lemma CompiledIsExact(u: Update, d: Delta, item: Item)
    requires Compiles(u, d)
    ensures SetTargets(u.sets, u.names) !! RemoveTargets(u.removes, u.names)
    ensures forall a: Attr ::
              (a in Evaluate(u, item) <==> if a in d then d[a].Put? else a in item) &&
              (a in Evaluate(u, item) ==> Evaluate(u, item)[a] == if a in d then d[a].value else item[a])
  {
    assert Evaluate(u, item) == Apply(d, item);
  }

  // Entering a new alias changes nothing for the clauses that do not use it.

  lemma {:induction false} SetsFrame(sets: List<Clause>, names: map<Tag, Attr>, names': map<Tag, Attr>, values: map<Tag, Value>, values': map<Tag, Value>)
    requires SetNames(sets) <= names.Keys && SetValues(sets) <= values.Keys
    requires names.Keys <= names'.Keys && values.Keys <= values'.Keys
    requires forall t <- names :: names'[t] == names[t]
    requires forall t <- values :: values'[t] == values[t]
    ensures SetTargets(sets, names') == SetTargets(sets, names)
    ensures SetsDistinct(sets, names') == SetsDistinct(sets, names)
    ensures forall item: Item :: EvaluateSets(sets, names', values', item) == EvaluateSets(sets, names, values, item)
  {
    if sets.Snoc? { SetsFrame(sets.init, names, names', values, values'); }
  }

  lemma {:induction false} RemovesFrame(removes: List<Tag>, names: map<Tag, Attr>, names': map<Tag, Attr>)
    requires RemoveNames(removes) <= names.Keys <= names'.Keys
    requires forall t <- names :: names'[t] == names[t]
    ensures RemoveTargets(removes, names') == RemoveTargets(removes, names)
    ensures RemovesDistinct(removes, names') == RemovesDistinct(removes, names)
    ensures forall item: Item :: EvaluateRemoves(removes, names', item) == EvaluateRemoves(removes, names, item)
  {
    if removes.Snoc? { RemovesFrame(removes.init, names, names'); }
  }

  /** A SET of an attribute that no REMOVE names can be moved behind the REMOVEs. */
  lemma {:induction false} SetThenRemoves(removes: List<Tag>, names: map<Tag, Attr>, item: Item, a: Attr, v: Value)
    requires RemoveNames(removes) <= names.Keys && a !in RemoveTargets(removes, names)
    ensures EvaluateRemoves(removes, names, item[a := v]) == EvaluateRemoves(removes, names, item)[a := v]
  {
    if removes.Snoc? { SetThenRemoves(removes.init, names, item, a, v); }
  }

  lemma ApplyPut(d: Delta, item: Item, attr: Attr, value: Value)
    ensures Apply(d[attr := Put(value)], item) == Apply(d, item)[attr := value]
  {
  }

  lemma ApplyDrop(d: Delta, item: Item, attr: Attr)
    ensures Apply(d[attr := Drop], item) == Apply(d, item) - {attr}
  {
  }

  ghost function WithSet(u: Update, tag: Tag, attr: Attr, value: Value): Update {
    Update(Snoc(u.sets, Clause(tag, tag)), u.removes, u.names[tag := attr], u.values[tag := value])
  }

  ghost function WithRemove(u: Update, tag: Tag, attr: Attr): Update {
    Update(u.sets, Snoc(u.removes, tag), u.names[tag := attr], u.values)
  }

  lemma SetAccepted(u: Update, tag: Tag, attr: Attr, value: Value)
    requires Accepted(u) && tag !in u.names && tag !in u.values && attr != TemplateId
    requires attr !in SetTargets(u.sets, u.names) + RemoveTargets(u.removes, u.names)
    ensures var u' := WithSet(u, tag, attr, value);
            && Accepted(u')
            && SetTargets(u'.sets, u'.names) == SetTargets(u.sets, u.names) + {attr}
            && RemoveTargets(u'.removes, u'.names) == RemoveTargets(u.removes, u.names)
  {
    var u' := WithSet(u, tag, attr, value);
    SetsFrame(u.sets, u.names, u'.names, u.values, u'.values);
    RemovesFrame(u.removes, u.names, u'.names);
  }

  lemma SetEvaluates(u: Update, tag: Tag, attr: Attr, value: Value, item: Item)
    requires Accepted(u) && tag !in u.names && tag !in u.values && attr != TemplateId
    requires attr !in SetTargets(u.sets, u.names) + RemoveTargets(u.removes, u.names)
    requires Accepted(WithSet(u, tag, attr, value))
    ensures Evaluate(WithSet(u, tag, attr, value), item) == Evaluate(u, item)[attr := value]
  {
    var u' := WithSet(u, tag, attr, value);
    SetsFrame(u.sets, u.names, u'.names, u.values, u'.values);
    RemovesFrame(u.removes, u.names, u'.names);
    SetThenRemoves(u.removes, u'.names, EvaluateSets(u.sets, u.names, u.values, item), attr, value);
  }

  lemma RemoveAccepted(u: Update, tag: Tag, attr: Attr)
    requires Accepted(u) && tag !in u.names && attr != TemplateId
    requires attr !in SetTargets(u.sets, u.names) + RemoveTargets(u.removes, u.names)
    ensures var u' := WithRemove(u, tag, attr);
            && Accepted(u')
            && SetTargets(u'.sets, u'.names) == SetTargets(u.sets, u.names)
            && RemoveTargets(u'.removes, u'.names) == RemoveTargets(u.removes, u.names) + {attr}
            && forall item: Item :: Evaluate(u', item) == Evaluate(u, item) - {attr}
  {
    var u' := WithRemove(u, tag, attr);
    SetsFrame(u.sets, u.names, u'.names, u.values, u.values);
    RemovesFrame(u.removes, u.names, u'.names);
  }

  lemma SetCompiles(u: Update, d: Delta, tag: Tag, attr: Attr, value: Value)
    requires Compiles(u, d) && tag !in u.names && tag !in u.values && attr !in d && attr != TemplateId
    ensures Compiles(WithSet(u, tag, attr, value), d[attr := Put(value)])
  {
    SetAccepted(u, tag, attr, value);
    forall item: Item ensures Evaluate(WithSet(u, tag, attr, value), item) == Apply(d[attr := Put(value)], item) {
      SetEvaluates(u, tag, attr, value, item);
      ApplyPut(d, item, attr, value);
    }
  }

  lemma RemoveCompiles(u: Update, d: Delta, tag: Tag, attr: Attr)
    requires Compiles(u, d) && tag !in u.names && attr !in d && attr != TemplateId
    ensures Compiles(WithRemove(u, tag, attr), d[attr := Drop])
  {
    RemoveAccepted(u, tag, attr);
    forall item: Item ensures Evaluate(WithRemove(u, tag, attr), item) == Apply(d[attr := Drop], item) {
      ApplyDrop(d, item, attr);
    }
  }

  // ---------- Building expressions field by field ----------

  /** An optional change of one attribute: undefined, null or a value. */
  datatype Field<+T> = Absent | Null | To(value: T)

  datatype Push = Push(tag: Tag, attr: Attr, field: Field<Value>)

  /** undefined leaves an attribute alone, null drops it, a value is stored. */
  ghost function FieldDelta(attr: Attr, f: Field<Value>): Delta {
    match f
    case Absent => map[]
    case Null => map[attr := Drop]
    case To(v) => map[attr := Put(v)]
  }

  ghost function DeltaOf(ps: List<Push>): Delta {
    if ps.Nil? then map[]
    else DeltaOf(ps.init) + FieldDelta(ps.last.attr, ps.last.field)
  }

  ghost function PushOnto(u: Update, p: Push): Update {
    match p.field
    case Absent => u
    case Null => WithRemove(u, p.tag, p.attr)
    case To(v) => WithSet(u, p.tag, p.attr, v)
  }

  ghost function Pushed(ps: List<Push>): Update {
    if ps.Nil? then Update(Nil, Nil, map[], map[]) else PushOnto(Pushed(ps.init), ps.last)
  }

  ghost function PushTags(ps: List<Push>): set<Tag> {
    if ps.Nil? then {} else PushTags(ps.init) + {ps.last.tag}
  }

  ghost function PushAttrs(ps: List<Push>): set<Attr> {
    if ps.Nil? then {} else PushAttrs(ps.init) + {ps.last.attr}
  }

  /** Each push has an alias and an attribute of its own, and none is the key. */
  ghost predicate Distinct(ps: List<Push>) {
    ps.Snoc? ==>
      && Distinct(ps.init)
      && ps.last.tag !in PushTags(ps.init) && ps.last.attr !in PushAttrs(ps.init) && ps.last.attr != TemplateId
  }

  /** The attribute each alias stands for, in every operation that uses it. */
  function Aliased(t: Tag): Attr {
    match t
    case Ua => UpdatedAt  case St => Status  case Mk => Marketing  case Sl => Slug
    case Ut => UseCaseType  case Dv => Devops  case Tun => TestingUseCaseName
    case Tuc => TestingUseCaseId  case Tds => TestingDeployStatus  case Wp => WizardPayload
    case Tru => TestingRuntimeUrl  case Terr => TestingError  case Tsa => TestingStartedAt
    case Tva => TestingValidatedAt  case Rt => Ratings  case Pa => PublishedAt
    case Pb => PublishedBy  case Uua => UnpublishedAt  case Uub => UnpublishedBy
  }

  /** The order in which the operations push their aliases. */
  function Rank(t: Tag): nat {
    match t
    case Ua => 0  case St => 1  case Mk => 2  case Sl => 3  case Ut => 4  case Dv => 5  case Tun => 6
    case Tuc => 7  case Tds => 8  case Wp => 9  case Tru => 10  case Terr => 11  case Tsa => 12
    case Tva => 13  case Rt => 14  case Pa => 15  case Pb => 16  case Uua => 17  case Uub => 18
  }

  ghost predicate Ascending(ps: List<Push>) {
    ps.Snoc? ==>
      && ps.last.attr == Aliased(ps.last.tag)
      && Ascending(ps.init)
      && (ps.init.Snoc? ==> Rank(ps.init.last.tag) < Rank(ps.last.tag))
  }

  lemma {:induction false} AscendingBelow(ps: List<Push>, t: Tag)
    requires Ascending(ps) && (ps.Snoc? ==> Rank(ps.last.tag) < Rank(t))
    ensures t !in PushTags(ps) && Aliased(t) !in PushAttrs(ps)
  {
    if ps.Snoc? { AscendingBelow(ps.init, t); }
  }

  lemma {:induction false} AscendingIsDistinct(ps: List<Push>)
    requires Ascending(ps)
    ensures Distinct(ps)
  {
    if ps.Snoc? {
      AscendingIsDistinct(ps.init);
      AscendingBelow(ps.init, ps.last.tag);
    }
  }

  /** The update-expression compiler preserves meaning, for every combination of optional fields. */
  lemma {:induction false} PushedCompiles(ps: List<Push>)
    requires Distinct(ps)
    ensures Compiles(Pushed(ps), DeltaOf(ps))
    ensures Pushed(ps).names.Keys <= PushTags(ps) && Pushed(ps).values.Keys <= PushTags(ps)
    ensures DeltaOf(ps).Keys <= PushAttrs(ps)
  {
    if ps.Snoc? {
      var init, p := ps.init, ps.last;
      PushedCompiles(init);
      match p.field {
        case Absent =>
          assert DeltaOf(ps) == DeltaOf(init);
        case Null =>
          RemoveCompiles(Pushed(init), DeltaOf(init), p.tag, p.attr);
          assert DeltaOf(ps) == DeltaOf(init)[p.attr := Drop];
        case To(v) =>
          SetCompiles(Pushed(init), DeltaOf(init), p.tag, p.attr, v);
          assert DeltaOf(ps) == DeltaOf(init)[p.attr := Put(v)];
      }
    } else {
      assert forall item: Item :: Apply(map[], item) == item;
    }
  }

  ghost function Lookup(ps: List<Push>, a: Attr): Field<Value> {
    if ps.Nil? then Absent
    else if ps.last.attr == a then ps.last.field
    else Lookup(ps.init, a)
  }

  lemma {:induction false} DeltaAt(ps: List<Push>, a: Attr)
    requires Distinct(ps)
    ensures match Lookup(ps, a)
            case Absent => a !in DeltaOf(ps)
            case Null => a in DeltaOf(ps) && DeltaOf(ps)[a] == Drop
            case To(v) => a in DeltaOf(ps) && DeltaOf(ps)[a] == Put(v)
    ensures a !in PushAttrs(ps) ==> Lookup(ps, a).Absent?
  {
    if ps.Snoc? { DeltaAt(ps.init, a); }
  }

  /** The item a list of pushes makes of an item, attribute by attribute. */
  ghost function Amend(ps: List<Push>, item: Item): Item {
    map a: Attr | Lookup(ps, a).To? || (Lookup(ps, a).Absent? && a in item) ::
      if Lookup(ps, a).To? then Lookup(ps, a).value else item[a]
  }

  lemma ApplyIsAmend(ps: List<Push>, item: Item)
    requires Distinct(ps)
    ensures Apply(DeltaOf(ps), item) == Amend(ps, item)
  {
    var l, r := Apply(DeltaOf(ps), item), Amend(ps, item);
    forall a: Attr ensures (a in l <==> a in r) && (a in l ==> l[a] == r[a]) {
      DeltaAt(ps, a);
    }
  }

  /** The arrays and alias maps an operation pushes onto before it sends its update. */
  class UpdateBuilder {
    var expression: Update
    ghost var pushes: List<Push>

    ghost predicate Valid() reads this {
      expression == Pushed(pushes) && Ascending(pushes)
    }

    constructor ()
      ensures Valid() && pushes == Nil
    {
      expression := Update(Nil, Nil, map[], map[]);
      pushes := Nil;
    }

    method Add(p: Push)
      requires Valid() && p.attr == Aliased(p.tag)
      requires pushes.Snoc? ==> Rank(pushes.last.tag) < Rank(p.tag)
      modifies this
      ensures Valid() && pushes == Snoc(old(pushes), p)
    {
      var u := expression;
      if p.field.Null? {
        expression := u.(removes := Snoc(u.removes, p.tag), names := u.names[p.tag := p.attr]);
      } else if p.field.To? {
        expression := u.(sets := Snoc(u.sets, Clause(p.tag, p.tag)), names := u.names[p.tag := p.attr],
                         values := u.values[p.tag := p.field.value]);
      }
      pushes := Snoc(pushes, p);
    }

    method AddBoth(p: Push, q: Push)
      requires Valid() && p.attr == Aliased(p.tag) && q.attr == Aliased(q.tag) && Rank(p.tag) < Rank(q.tag)
      requires pushes.Snoc? ==> Rank(pushes.last.tag) < Rank(p.tag)
      modifies this
      ensures Valid() && pushes == Snoc(Snoc(old(pushes), p), q)
    {
      Add(p);
      Add(q);
    }

    /** What was pushed is an accepted expression that means the pushed changes. */
    lemma Compiled()
      requires Valid()
      ensures Accepted(expression)
      ensures forall item: Item :: Evaluate(expression, item) == Amend(pushes, item)
    {
      AscendingIsDistinct(pushes);
      PushedCompiles(pushes);
      forall item: Item ensures Evaluate(expression, item) == Amend(pushes, item) {
        ApplyIsAmend(pushes, item);
      }
    }
  }
}
