/** What holds of every service instance in the store, and how each kind of write keeps it. */
module Instances {
  import opened Types
  import opened Metadata
  import opened PlanPolicy
  import opened Store
  import opened Catalog
  import opened Requests

  // ---------------------------------------------------------------- The invariant

  /** The labels an instance shares with the composition it was made from. */
  ghost predicate SharesLabels(a: LabelMap, b: LabelMap)
  {
    && Text(a, ServiceNameLabel) == Text(b, ServiceNameLabel)
    && Text(a, ServiceIdLabel) == Text(b, ServiceIdLabel)
    && Text(a, PlanNameLabel) == Text(b, PlanNameLabel)
    && Text(a, SlaLabel) == Text(b, SlaLabel)
  }

  /** The instance refers to a composition of its own kind, carries that composition's labels and its own
      id, and none of the flags that could keep its labels from being parsed. */
  ghost predicate InstanceOk(cat: Catalog, key: Key, c: Composite)
  {
    && GetPlan(cat, c.compositionRef).Ok?
    && PlanGvk(GetPlan(cat, c.compositionRef).value) == Ok(key.gvk)
    && SharesLabels(c.labels, GetPlan(cat, c.compositionRef).value.composition.labels)
    && NoFlags(c.labels)
    && Text(c.labels, InstanceIdLabel) == key.name
    && key.name != ""
  }

  ghost predicate InstancesOk(cat: Catalog, s: State)
  {
    forall k :: k in s.composites && InstanceGvk(k.gvk) ==> InstanceOk(cat, k, s.composites[k])
  }

  /** The plan an instance is on. */
  function StoredPlan(cat: Catalog, c: Composite): Result<Plan>
  {
    GetPlan(cat, c.compositionRef)
  }

  /** Every instance re-parses, and parsing gives back the service, the service id, the plan name, the size
      and the SLA of the plan it is on. */
  lemma InstanceParses(cat: Catalog, key: Key, c: Composite)
    requires InstanceOk(cat, key, c)
    ensures ParseLabels(c.labels).Ok?
    ensures var l, p := ParseLabels(c.labels).value, StoredPlan(cat, c).value.labels;
            && l.serviceName == p.serviceName && l.serviceId == p.serviceId
            && l.planName == p.planName && l.planSize == p.planSize && l.sla == p.sla
            && l.instanceId == key.name && l.bindable && !l.updatable && !l.deleted
  {
  }

  lemma ServiceGvkInjective(a: Service, b: Service)
    requires ServiceGvk(a) == ServiceGvk(b)
    ensures a == b
  {
  }

  /** The kind of an instance and its service name label name the same service. */
  lemma KindMatchesService(cat: Catalog, key: Key, c: Composite)
    requires WellFormed(cat) && InstanceOk(cat, key, c)
    ensures ParseLabels(c.labels).Ok?
    ensures ServiceOf(ParseLabels(c.labels).value.serviceName).Some?
    ensures key.gvk == ServiceGvk(ServiceOf(ParseLabels(c.labels).value.serviceName).value)
  {
    InstanceParses(cat, key, c);
    assert PlanBuildsService(GetPlan(cat, c.compositionRef).value);
  }

  // ---------------------------------------------------------------- Writing labels and parsing them

  ghost predicate NoFlags(labels: LabelMap)
  {
    Text(labels, BindableLabel) == "" && Text(labels, UpdatableLabel) == "" && Text(labels, DeletedLabel) == ""
  }

  lemma PlanLabelsCarry(plan: Plan, id: string, principal: string)
    ensures var labels := PlanLabels(plan, id, principal);
            SharesLabels(labels, plan.composition.labels) && NoFlags(labels)
            && Text(labels, InstanceIdLabel) == id && ParentIdLabel !in labels
  {
    assert IsCopied(ServiceIdLabel) && IsCopied(ServiceNameLabel) && IsCopied(PlanNameLabel) && IsCopied(SlaLabel);
  }

  /** The labels are those of the composition, for each of the eight that an instance copies. */
  ghost predicate CopiesPlan(labels: LabelMap, plan: Plan)
  {
    var p := plan.composition.labels;
    && ServiceIdLabel in labels && labels[ServiceIdLabel] == Text(p, ServiceIdLabel)
    && ServiceNameLabel in labels && labels[ServiceNameLabel] == Text(p, ServiceNameLabel)
    && PlanNameLabel in labels && labels[PlanNameLabel] == Text(p, PlanNameLabel)
    && ClusterLabel in labels && labels[ClusterLabel] == Text(p, ClusterLabel)
    && SlaLabel in labels && labels[SlaLabel] == Text(p, SlaLabel)
    && OwnerApiVersionLabel in labels && labels[OwnerApiVersionLabel] == Text(p, OwnerApiVersionLabel)
    && OwnerGroupLabel in labels && labels[OwnerGroupLabel] == Text(p, OwnerGroupLabel)
    && OwnerKindLabel in labels && labels[OwnerKindLabel] == Text(p, OwnerKindLabel)
  }

  /** The labels that every new instance has: the eight copied ones, its id and its principal, and no others
      but perhaps a parent. */
  ghost predicate BaseLabels(labels: LabelMap, id: string, plan: Plan, principal: string)
  {
    && CopiesPlan(labels, plan)
    && InstanceIdLabel in labels && labels[InstanceIdLabel] == id
    && PrincipalLabel in labels && labels[PrincipalLabel] == principal
    && BindableLabel !in labels && UpdatableLabel !in labels && DeletedLabel !in labels
    && forall k: LabelKey :: k.OtherLabel? ==> k !in labels
  }

  /** All labels of a new instance: those that every one has, and its parent if it has one. */
  ghost predicate NewLabels(labels: LabelMap, id: string, plan: Plan, params: Params, principal: string)
  {
    && BaseLabels(labels, id, plan, principal)
    && (ParentIdLabel in labels <==> ParentReference in params && params[ParentReference].Str?)
    && (ParentIdLabel in labels ==> labels[ParentIdLabel] == params[ParentReference].s)
  }

  lemma PlanLabelsCopy(plan: Plan, id: string, principal: string)
    ensures CopiesPlan(PlanLabels(plan, id, principal), plan)
  {
    assert IsCopied(ClusterLabel) && IsCopied(OwnerApiVersionLabel) && IsCopied(OwnerGroupLabel);
    assert IsCopied(OwnerKindLabel) && IsCopied(ServiceIdLabel) && IsCopied(ServiceNameLabel);
    assert IsCopied(PlanNameLabel) && IsCopied(SlaLabel);
  }

  lemma PlanLabelsAreBase(plan: Plan, id: string, principal: string)
    ensures BaseLabels(PlanLabels(plan, id, principal), id, plan, principal)
    ensures ParentIdLabel !in PlanLabels(plan, id, principal)
  {
    PlanLabelsCopy(plan, id, principal);
  }

  lemma ParentKeepsBase(labels: LabelMap, id: string, plan: Plan, principal: string, parent: string)
    requires BaseLabels(labels, id, plan, principal)
    ensures BaseLabels(labels[ParentIdLabel := parent], id, plan, principal)
  {
  }

  lemma PreparedLabelsAreNew(id: string, plan: Plan, params: Params, principal: Result<string>)
    requires PrepareLabels(id, plan, params, principal).Ok?
    ensures principal.Ok?
    ensures NewLabels(PrepareLabels(id, plan, params, principal).value, id, plan, params, principal.value)
  {
    var labels := PlanLabels(plan, id, principal.value);
    PlanLabelsAreBase(plan, id, principal.value);
    if ParentReference in params && params[ParentReference].Str? {
      ParentKeepsBase(labels, id, plan, principal.value, params[ParentReference].s);
    }
  }

  lemma PreparedLabelsCarry(id: string, plan: Plan, params: Params, principal: Result<string>)
    requires PrepareLabels(id, plan, params, principal).Ok?
    ensures var labels := PrepareLabels(id, plan, params, principal).value;
            && SharesLabels(labels, plan.composition.labels) && NoFlags(labels) && Text(labels, InstanceIdLabel) == id
            && (ParentIdLabel in labels <==> ParentReference in params && params[ParentReference].Str?)
            && (ParentIdLabel in labels ==> labels[ParentIdLabel] == params[ParentReference].s)
  {
    PlanLabelsCarry(plan, id, principal.value);
  }

  lemma SharedLabelsParse(a: LabelMap, b: LabelMap)
    requires SharesLabels(a, b) && NoFlags(a) && ParseLabels(b).Ok?
    ensures ParseLabels(a).Ok?
    ensures var l, p := ParseLabels(a).value, ParseLabels(b).value;
            && l.serviceName == p.serviceName && l.serviceId == p.serviceId
            && l.planName == p.planName && l.planSize == p.planSize && l.sla == p.sla
            && l.instanceId == Text(a, InstanceIdLabel) && l.parentId == Text(a, ParentIdLabel)
            && l.bindable && !l.updatable && !l.deleted
  {
  }

  /** The labels written for a new instance parse, and parsing them gives back the plan. */
  lemma LabelsRoundTrip(cat: Catalog, id: string, plan: Plan, params: Params, principal: Result<string>)
    requires GetPlan(cat, plan.name) == Ok(plan)
    requires PrepareLabels(id, plan, params, principal).Ok?
    ensures var labels := PrepareLabels(id, plan, params, principal).value;
            && ParseLabels(labels).Ok?
            && var l := ParseLabels(labels).value;
               && l.serviceName == plan.labels.serviceName && l.serviceId == plan.labels.serviceId
               && l.planName == plan.labels.planName && l.planSize == plan.labels.planSize
               && l.sla == plan.labels.sla && l.instanceId == id
               && (ParentReference in params && params[ParentReference].Str? ==>
                     l.parentId == params[ParentReference].s)
               && (ParentReference !in params ==> l.parentId == "")
  {
    PreparedLabelsCarry(id, plan, params, principal);
    SharedLabelsParse(PrepareLabels(id, plan, params, principal).value, plan.composition.labels);
  }

  // ---------------------------------------------------------------- Writes

  /** A new instance made from a plan of the catalog. */
  ghost predicate FreshInstance(cat: Catalog, w: Write)
  {
    exists plan: Plan, params: Params, principal: Result<string> ::
      GetPlan(cat, plan.name) == Ok(plan) && PrepareCreate(w.key.name, plan, params, principal) == Ok(w)
  }

  lemma FreshInstanceOk(cat: Catalog, w: Write)
    requires FreshInstance(cat, w) && w.key.name != ""
    ensures InstanceOk(cat, w.key, w.composite)
  {
    var plan: Plan, params: Params, principal: Result<string> :|
      GetPlan(cat, plan.name) == Ok(plan) && PrepareCreate(w.key.name, plan, params, principal) == Ok(w);
    PreparedInstanceOk(cat, w, plan, params, principal);
  }

  lemma PreparedInstanceOk(cat: Catalog, w: Write, plan: Plan, params: Params, principal: Result<string>)
    requires GetPlan(cat, plan.name) == Ok(plan) && PrepareCreate(w.key.name, plan, params, principal) == Ok(w)
    requires w.key.name != ""
    ensures InstanceOk(cat, w.key, w.composite)
  {
    PreparedLabelsCarry(w.key.name, plan, params, principal);
    assert w.composite.compositionRef == plan.name;
  }

  /** A plan with the kind and the plan name of an instance is the plan the instance is on. */
  lemma MatchingPlanIsStored(cat: Catalog, key: Key, c: Composite, plan: Plan)
    requires WellFormed(cat) && InstanceOk(cat, key, c)
    requires GetPlan(cat, plan.name) == Ok(plan) && PlanGvk(plan) == Ok(key.gvk)
    requires ParseLabels(c.labels).Ok? && ParseLabels(c.labels).value.planName == plan.labels.planName
    ensures plan.name == c.compositionRef
    ensures StoredPlan(cat, c) == Ok(plan)
  {
    InstanceParses(cat, key, c);
    assert SamePlan(StoredPlan(cat, c).value, plan);
  }

  /** Moving an instance to a plan that the rules accept from the plan it is on keeps the invariant. */
  lemma RetargetOk(cat: Catalog, pc: Checker, key: Key, c: Composite, plan: Plan, params: Params)
    requires WellFormed(cat) && InstanceOk(cat, key, c)
    requires GetPlan(cat, plan.name) == Ok(plan) && PlanGvk(plan) == Ok(key.gvk)
    requires AllowUpdate(pc, StoredPlan(cat, c).value.labels, plan.labels)
    ensures InstanceOk(cat, key, Retarget(c, plan, params))
    ensures StoredPlan(cat, Retarget(c, plan, params)) == Ok(plan)
  {
    var was := StoredPlan(cat, c).value;
    AllowedUpdateFollowsRules(pc, was.labels, plan.labels);
    SameKindSameService(cat, was, plan);
    assert was.labels.serviceName == Text(was.composition.labels, ServiceNameLabel);
    assert plan.labels.serviceName == Text(plan.composition.labels, ServiceNameLabel);
    RetargetLabels(c, plan, params);
  }

  lemma SameKindSameService(cat: Catalog, p: Plan, q: Plan)
    requires WellFormed(cat)
    requires GetPlan(cat, p.name) == Ok(p) && GetPlan(cat, q.name) == Ok(q)
    requires PlanGvk(p) == PlanGvk(q)
    ensures p.labels.serviceName == q.labels.serviceName
  {
    assert PlanBuildsService(p) && PlanBuildsService(q);
    var a, b := ServiceOf(p.labels.serviceName).value, ServiceOf(q.labels.serviceName).value;
    ServiceGvkInjective(a, b);
    ServiceNamesAreUnambiguous(p.labels.serviceName, a);
    ServiceNamesAreUnambiguous(q.labels.serviceName, a);
  }

  lemma RetargetLabels(c: Composite, plan: Plan, params: Params)
    ensures var d := Retarget(c, plan, params);
            && SameIdentity(c, d)
            && Text(d.labels, PlanNameLabel) == Text(plan.composition.labels, PlanNameLabel)
            && Text(d.labels, SlaLabel) == Text(plan.composition.labels, SlaLabel)
            && (NoFlags(c.labels) ==> NoFlags(d.labels))
  {
  }

  /** What an Update does to an object and what it leaves alone: it sets the composition, the plan and the SLA
      label, and the parameters; every other label and all that the controller maintains stay. */
  ghost predicate OnlyRetargeted(c: Composite, d: Composite, plan: Plan, params: Params)
  {
    && d.compositionRef == plan.name && d.params == params
    && d.ready == c.ready && d.deleting == c.deleting && d.refs == c.refs && d.connection == c.connection
    && PlanNameLabel in d.labels && d.labels[PlanNameLabel] == Text(plan.composition.labels, PlanNameLabel)
    && SlaLabel in d.labels && d.labels[SlaLabel] == Text(plan.composition.labels, SlaLabel)
    && forall k: LabelKey :: !k.PlanNameLabel? && !k.SlaLabel? ==>
         (k in d.labels <==> k in c.labels) && (k in c.labels ==> d.labels[k] == c.labels[k])
  }

  lemma RetargetFrame(s: State, key: Key, plan: Plan, params: Params)
    requires key in s.composites
    ensures var s' := Put(s, key, Retarget(s.composites[key], plan, params));
            key in s'.composites && OnlyRetargeted(s.composites[key], s'.composites[key], plan, params)
  {
  }

  /** What one step may do to the service instances. */
  datatype Effect =
    | Untouched
    | Created(key: Key)
    | PlanChanged(key: Key)
    | StatusChanged(key: Key)
    | Removed(key: Key)

  /** The instance keeps everything a plan change does not concern. */
  ghost predicate SameIdentity(c: Composite, d: Composite)
  {
    && Text(c.labels, ServiceIdLabel) == Text(d.labels, ServiceIdLabel)
    && Text(c.labels, ServiceNameLabel) == Text(d.labels, ServiceNameLabel)
    && Text(c.labels, InstanceIdLabel) == Text(d.labels, InstanceIdLabel)
    && (ParentIdLabel in c.labels <==> ParentIdLabel in d.labels)
    && Text(c.labels, ParentIdLabel) == Text(d.labels, ParentIdLabel)
  }

  ghost predicate Explains(cat: Catalog, pc: Checker, e: Effect, s: State, s': State)
  {
    && s.clock <= s'.clock
    && s.strict == s'.strict
    && (forall k: Key :: InstanceGvk(k.gvk) && (e.Untouched? || k != e.key) ==>
          (k in s.composites <==> k in s'.composites)
          && (k in s.composites ==> s.composites[k] == s'.composites[k]))
    && match e
       case Untouched => true
       case Created(k) => k !in s.composites && k in s'.composites && InstanceOk(cat, k, s'.composites[k])
       case PlanChanged(k) =>
         && k in s.composites && k in s'.composites
         && InstanceOk(cat, k, s'.composites[k])
         && SameIdentity(s.composites[k], s'.composites[k])
         && StoredPlan(cat, s.composites[k]).Ok? && StoredPlan(cat, s'.composites[k]).Ok?
         && AllowUpdate(pc, StoredPlan(cat, s.composites[k]).value.labels,
                        StoredPlan(cat, s'.composites[k]).value.labels)
       case StatusChanged(k) =>
         && k in s.composites && k in s'.composites
         && SameSpec(s.composites[k], s'.composites[k])
       case Removed(k) => k in s.composites && k !in s'.composites
  }

  /** The two objects agree on everything the broker writes. */
  ghost predicate SameSpec(c: Composite, d: Composite)
  {
    c.labels == d.labels && c.params == d.params && c.compositionRef == d.compositionRef
  }

  /** Every explained step keeps the instances well formed. */
  lemma ExplainedKeepsInstances(cat: Catalog, pc: Checker, e: Effect, s: State, s': State)
    requires InstancesOk(cat, s) && Explains(cat, pc, e, s, s')
    ensures InstancesOk(cat, s')
  {
    forall k | k in s'.composites && InstanceGvk(k.gvk) ensures InstanceOk(cat, k, s'.composites[k]) {
      if e.StatusChanged? && k == e.key {
        assert InstanceOk(cat, k, s.composites[k]);
      }
    }
  }

  lemma InstanceOkAtAnyVersion(cat: Catalog, key: Key, c: Composite, version: nat)
    requires InstanceOk(cat, key, c)
    ensures InstanceOk(cat, key, c.(version := version))
  {
  }

  lemma AddingExplained(cat: Catalog, pc: Checker, s: State, key: Key, c: Composite)
    requires key !in s.composites && InstanceOk(cat, key, c.(version := s.clock))
    ensures Explains(cat, pc, Created(key), s, Put(s, key, c))
  {
  }

  lemma CreateExplained(cat: Catalog, pc: Checker, s: State, w: Write)
    requires FreshInstance(cat, w)
    requires Create(s, w.key, w.composite).Ok?
    ensures Explains(cat, pc, Created(w.key), s, Create(s, w.key, w.composite).value)
  {
    assert w.key.name != "" && w.key !in s.composites;
    FreshInstanceOk(cat, w);
    InstanceOkAtAnyVersion(cat, w.key, w.composite, s.clock);
    AddingExplained(cat, pc, s, w.key, w.composite);
  }

  lemma DeleteExplained(cat: Catalog, pc: Checker, s: State, key: Key)
    requires Delete(s, key).Ok?
    ensures Explains(cat, pc, Removed(key), s, Delete(s, key).value)
  {
  }

  lemma ReplacingExplained(cat: Catalog, pc: Checker, s: State, key: Key, d: Composite, was: Plan, plan: Plan)
    requires key in s.composites && InstanceOk(cat, key, d.(version := s.clock))
    requires SameIdentity(s.composites[key], d)
    requires StoredPlan(cat, s.composites[key]) == Ok(was) && StoredPlan(cat, d) == Ok(plan)
    requires AllowUpdate(pc, was.labels, plan.labels)
    ensures Explains(cat, pc, PlanChanged(key), s, Put(s, key, d))
  {
  }

  /** An update whose snapshot is the object now in the store, decided on the plan found for the snapshot. */
  lemma UpdateExplained(cat: Catalog, pc: Checker, s: State, key: Key, c: Composite, was: Plan, plan: Plan,
                        params: Params)
    requires WellFormed(cat) && InstancesOk(cat, s)
    requires key in s.composites && s.composites[key] == c && InstanceGvk(key.gvk)
    requires GetPlan(cat, was.name) == Ok(was) && PlanGvk(was) == Ok(key.gvk)
    requires ParseLabels(c.labels).Ok? && ParseLabels(c.labels).value.planName == was.labels.planName
    requires GetPlan(cat, plan.name) == Ok(plan) && PlanGvk(plan) == Ok(key.gvk)
    requires AllowUpdate(pc, was.labels, plan.labels)
    requires Store.Update(s, key, Retarget(c, plan, params)).Ok?
    ensures Explains(cat, pc, PlanChanged(key), s, Store.Update(s, key, Retarget(c, plan, params)).value)
  {
    MatchingPlanIsStored(cat, key, c, was);
    RetargetOk(cat, pc, key, c, plan, params);
    RetargetLabels(c, plan, params);
    InstanceOkAtAnyVersion(cat, key, Retarget(c, plan, params), s.clock);
    ReplacingExplained(cat, pc, s, key, Retarget(c, plan, params), was, plan);
  }

  // ---------------------------------------------------------------- Lookups

  /** A successful lookup returns the stored object under the plan's kind, with a matching plan name. */
  lemma LookupMeaning(s: State, id: string, plan: Plan)
    ensures Lookup(s, id, plan).Ok? && Lookup(s, id, plan).value.Some? ==>
              var i := Lookup(s, id, plan).value.value;
              && PlanGvk(plan) == Ok(i.key.gvk) && i.key.name == id
              && i.key in s.composites && s.composites[i.key] == i.composite
              && ParseLabels(i.composite.labels) == Ok(i.labels) && i.labels.planName == plan.labels.planName
  {
  }

  lemma {:induction false} FindInMeaning(s: State, id: string, plans: seq<Plan>)
    requires FindIn(s, id, plans).Ok?
    ensures FindIn(s, id, plans).value.plan in plans
    ensures Lookup(s, id, FindIn(s, id, plans).value.plan) == Ok(Some(FindIn(s, id, plans).value.instance))
  {
    if plans != [] {
      var r := Lookup(s, id, plans[0]);
      if r == Ok(None) || r == Err(PlanMismatch) {
        FindInMeaning(s, id, plans[1..]);
      }
    }
  }

  /** Whatever the request found, it found in the store under a plan of the catalog. */
  lemma FindMeaning(cat: Catalog, s: State, planId: string, id: string, listed: seq<string>)
    requires Listing(cat, listed)
    requires Find(cat, s, planId, id, listed).Ok?
    ensures var f := Find(cat, s, planId, id, listed).value;
            && GetPlan(cat, f.plan.name) == Ok(f.plan)
            && Lookup(s, id, f.plan) == Ok(Some(f.instance))
  {
    if planId == "" {
      PlansMeaning(cat, listed);
      FindInMeaning(s, id, Plans(cat, listed).value);
    }
  }

  /** The plan's kind and name fit a stored instance with this id. */
  ghost predicate Matches(s: State, id: string, plan: Plan)
  {
    && PlanGvk(plan).Ok?
    && var key := Key(PlanGvk(plan).value, id);
       && key in s.composites
       && Text(s.composites[key].labels, PlanNameLabel) == plan.labels.planName
  }

  /** What a lookup by id and plan answers: nothing if the plan's kind has no such object, the object if its
      labels parse and the plan name matches, and a mismatch if only the plan name does not match. */
  lemma LookupIff(s: State, id: string, plan: Plan, gvk: Gvk)
    requires PlanGvk(plan) == Ok(gvk)
    ensures var key, r := Key(gvk, id), Lookup(s, id, plan);
            && (r == Ok(None) <==> key !in s.composites)
            && (key in s.composites ==>
                  var labels := ParseLabels(s.composites[key].labels);
                  && (r.Ok? <==> labels.Ok? && Matches(s, id, plan))
                  && (r.Ok? ==> r == Ok(Some(Instance(key, s.composites[key], labels.value))))
                  && (r == Err(PlanMismatch) <==> labels.Ok? && !Matches(s, id, plan)))
  {
  }

  /** No lookup of this id through these plans can fail for another reason than not matching. */
  ghost predicate Searchable(s: State, id: string, plans: seq<Plan>)
  {
    forall p :: p in plans ==>
      PlanGvk(p).Ok? && (Key(PlanGvk(p).value, id) in s.composites ==>
                           ParseLabels(s.composites[Key(PlanGvk(p).value, id)].labels).Ok?)
  }

  lemma LookupIffMatches(s: State, id: string, plan: Plan)
    requires Searchable(s, id, [plan])
    ensures Matches(s, id, plan) <==> Lookup(s, id, plan).Ok? && Lookup(s, id, plan).value.Some?
    ensures !Matches(s, id, plan) ==> Lookup(s, id, plan) in {Ok(None), Err(PlanMismatch)}
  {
    assert plan in [plan];
  }

  /** The search reports not-found exactly when no plan matches, and otherwise finds a match. */
  lemma {:induction false} FindInIff(s: State, id: string, plans: seq<Plan>)
    requires Searchable(s, id, plans)
    ensures FindIn(s, id, plans) == Err(PlanMismatch) <==> forall p :: p in plans ==> !Matches(s, id, p)
    ensures FindIn(s, id, plans).Ok? <==> exists p :: p in plans && Matches(s, id, p)
    ensures FindIn(s, id, plans).Ok? ==> Matches(s, id, FindIn(s, id, plans).value.plan)
  {
    if plans != [] {
      assert plans == [plans[0]] + plans[1..];
      assert Searchable(s, id, [plans[0]]);
      LookupIffMatches(s, id, plans[0]);
      if !Matches(s, id, plans[0]) {
        FindInIff(s, id, plans[1..]);
      }
    }
  }

  lemma {:induction false} PlansSearchable(cat: Catalog, s: State, id: string, plans: seq<Plan>)
    requires WellFormed(cat) && InstancesOk(cat, s)
    requires forall p :: p in plans ==> GetPlan(cat, p.name) == Ok(p)
    ensures Searchable(s, id, plans)
  {
    forall p | p in plans
      ensures PlanGvk(p).Ok?
      ensures Key(PlanGvk(p).value, id) in s.composites ==>
                ParseLabels(s.composites[Key(PlanGvk(p).value, id)].labels).Ok?
    {
      assert PlanBuildsService(p);
      var key := Key(PlanGvk(p).value, id);
      if key in s.composites {
        InstanceParses(cat, key, s.composites[key]);
      }
    }
  }

  /** The id exists under one of the kinds the catalog's plans build, and under no other. */
  ghost predicate UnderOneKind(cat: Catalog, s: State, id: string, key: Key)
  {
    && key.name == id && key in s.composites && InstanceGvk(key.gvk)
    && forall k :: k in s.composites && InstanceGvk(k.gvk) && k.name == id ==> k == key
  }

  /** An instance is found through the plan it is on. */
  lemma StoredInstanceIsFound(cat: Catalog, s: State, key: Key)
    requires WellFormed(cat) && InstancesOk(cat, s)
    requires key in s.composites && InstanceGvk(key.gvk)
    ensures var c := s.composites[key];
            && c.compositionRef != ""
            && ParseLabels(c.labels).Ok?
            && FindWithPlan(cat, s, c.compositionRef, key.name)
               == Ok(Found(StoredPlan(cat, c).value, Instance(key, c, ParseLabels(c.labels).value)))
  {
    InstanceParses(cat, key, s.composites[key]);
  }

  /** With every plan parsed, the search finds the instance under the plan it is on. */
  lemma SearchFindsThePlan(cat: Catalog, s: State, id: string, key: Key, listed: seq<string>)
    requires WellFormed(cat) && InstancesOk(cat, s) && Listing(cat, listed)
    requires Plans(cat, listed).Ok?
    requires UnderOneKind(cat, s, id, key)
    requires Selected(cat, s.composites[key].compositionRef)
    ensures var plan := StoredPlan(cat, s.composites[key]).value;
            && FindWithoutPlan(cat, s, id, listed) == FindWithPlan(cat, s, plan.name, id)
            && FindWithoutPlan(cat, s, id, listed).Ok?
            && FindWithoutPlan(cat, s, id, listed).value.plan == plan
            && FindWithoutPlan(cat, s, id, listed).value.instance.composite == s.composites[key]
  {
    var c := s.composites[key];
    InstanceParses(cat, key, c);
    var plan := StoredPlan(cat, c).value;
    var plans := Plans(cat, listed).value;
    PlansMeaning(cat, listed);
    assert plan in plans;
    PlansSearchable(cat, s, id, plans);
    assert Matches(s, id, plan);
    FindInIff(s, id, plans);
    FindInMeaning(s, id, plans);
    var found := FindIn(s, id, plans).value;
    assert PlanBuildsService(found.plan);
    assert found.instance.key == key;
    MatchingPlanIsStored(cat, key, c, found.plan);
  }

  /** The planless search of an id that exists under one kind, with a plan of a configured service: for every
      listing, and so for every outcome of the unstable sort, it finds exactly the instance and the plan that
      a lookup with the right plan finds, if and only if every composition of every configured service has
      labels that parse. One that does not makes every planless request fail. */
  lemma PlanlessFindsThePlan(cat: Catalog, s: State, id: string, key: Key, listed: seq<string>)
    requires WellFormed(cat) && InstancesOk(cat, s) && Listing(cat, listed)
    requires UnderOneKind(cat, s, id, key)
    requires Selected(cat, s.composites[key].compositionRef)
    ensures var c := s.composites[key];
            && (FindWithoutPlan(cat, s, id, listed) == FindWithPlan(cat, s, c.compositionRef, id)
                <==> AllPlansParse(cat))
            && (FindWithoutPlan(cat, s, id, listed).Ok? <==> AllPlansParse(cat))
    ensures var c := s.composites[key];
            FindWithPlan(cat, s, c.compositionRef, id).Ok?
            && FindWithPlan(cat, s, c.compositionRef, id).value.plan == StoredPlan(cat, c).value
            && FindWithPlan(cat, s, c.compositionRef, id).value.instance.composite == c
  {
    PlansMeaning(cat, listed);
    StoredInstanceIsFound(cat, s, key);
    if Plans(cat, listed).Ok? {
      SearchFindsThePlan(cat, s, id, key, listed);
    }
  }

  /** Some composition of a configured service fits a stored object of this id. */
  ghost predicate SomePlanMatches(cat: Catalog, s: State, id: string)
  {
    exists n :: Selected(cat, n) && GetPlan(cat, n).Ok? && Matches(s, id, GetPlan(cat, n).value)
  }

  lemma ListedPlansMatchIff(cat: Catalog, s: State, id: string, listed: seq<string>)
    requires Listing(cat, listed) && Plans(cat, listed).Ok?
    ensures SomePlanMatches(cat, s, id) <==> exists p :: p in Plans(cat, listed).value && Matches(s, id, p)
  {
    PlansMeaning(cat, listed);
    if SomePlanMatches(cat, s, id) {
      var n :| Selected(cat, n) && GetPlan(cat, n).Ok? && Matches(s, id, GetPlan(cat, n).value);
      assert GetPlan(cat, n).value in Plans(cat, listed).value;
    }
  }

  /** Exactly when the planless search finds something: if all plans parse and one of them matches a stored
      object. Exactly when it reports not-found: if all plans parse and none matches. */
  lemma PlanlessMissIff(cat: Catalog, s: State, id: string, listed: seq<string>)
    requires WellFormed(cat) && InstancesOk(cat, s) && Listing(cat, listed)
    ensures var listable := cat.serviceIds != [] && AllPlansParse(cat);
            && (FindWithoutPlan(cat, s, id, listed).Ok? <==> listable && SomePlanMatches(cat, s, id))
            && (FindWithoutPlan(cat, s, id, listed) == Err(PlanMismatch) <==> listable && !SomePlanMatches(cat, s, id))
  {
    PlansMeaning(cat, listed);
    match Plans(cat, listed)
    case Err(_) => NewPlansErrors(cat, SortByPlanName(cat, listed));
    case Ok(plans) =>
      ListedPlansMatchIff(cat, s, id, listed);
      PlansSearchable(cat, s, id, plans);
      FindInIff(s, id, plans);
  }

  // ---------------------------------------------------------------- Ids used under several kinds

  /** The search stops at the first plan that matches. */
  lemma {:induction false} FindInFirst(s: State, id: string, plans: seq<Plan>) returns (i: nat)
    requires Searchable(s, id, plans) && FindIn(s, id, plans).Ok?
    ensures i < |plans| && FindIn(s, id, plans).value.plan == plans[i] && Matches(s, id, plans[i])
    ensures forall j :: 0 <= j < i ==> !Matches(s, id, plans[j])
  {
    assert plans != [];
    assert plans == [plans[0]] + plans[1..];
    assert Searchable(s, id, [plans[0]]);
    LookupIffMatches(s, id, plans[0]);
    if Matches(s, id, plans[0]) {
      i := 0;
    } else {
      var k := FindInFirst(s, id, plans[1..]);
      i := k + 1;
    }
  }

  lemma NotBeforeItself(name: string)
    ensures !LexLess(name, name)
  {
    if LexLess(name, name) {
      LexLessAsymmetric(name, name);
    }
  }

  lemma PlanNameOfPlan(cat: Catalog, name: string)
    requires GetPlan(cat, name).Ok?
    ensures PlanNameOf(cat, name) == GetPlan(cat, name).value.labels.planName
  {
  }

  /** The plans come in the order of their names. */
  lemma PlansAreSorted(cat: Catalog, listed: seq<string>, i: nat, j: nat)
    requires Plans(cat, listed).Ok? && i <= j < |Plans(cat, listed).value|
    ensures var plans := Plans(cat, listed).value;
            !LexLess(plans[j].labels.planName, plans[i].labels.planName)
  {
    var names := SortByPlanName(cat, listed);
    NewPlansMeaning(cat, names);
    SortSorts(cat, listed);
    PlanNameOfPlan(cat, names[i]);
    PlanNameOfPlan(cat, names[j]);
    NotBeforeItself(Plans(cat, listed).value[i].labels.planName);
  }

  lemma FirstMatchComesFirst(cat: Catalog, s: State, id: string, listed: seq<string>, other: Plan)
    requires Plans(cat, listed).Ok? && other in Plans(cat, listed).value && Matches(s, id, other)
    requires Searchable(s, id, Plans(cat, listed).value) && FindIn(s, id, Plans(cat, listed).value).Ok?
    ensures var found := FindIn(s, id, Plans(cat, listed).value).value.plan;
            Matches(s, id, found) && !LexLess(other.labels.planName, found.labels.planName)
  {
    var plans := Plans(cat, listed).value;
    var i := FindInFirst(s, id, plans);
    var j :| 0 <= j < |plans| && plans[j] == other;
    PlansAreSorted(cat, listed, i, j);
  }

  /** What the planless search answers if the id is used under several kinds: a plan that matches, and of those
      one whose name comes first. */
  lemma PlanlessFindsTheFirst(cat: Catalog, s: State, id: string, listed: seq<string>, other: Plan)
    requires WellFormed(cat) && InstancesOk(cat, s) && Listing(cat, listed)
    requires FindWithoutPlan(cat, s, id, listed).Ok?
    requires Selected(cat, other.name) && GetPlan(cat, other.name) == Ok(other) && Matches(s, id, other)
    ensures var found := FindWithoutPlan(cat, s, id, listed).value.plan;
            && Selected(cat, found.name) && GetPlan(cat, found.name) == Ok(found) && Matches(s, id, found)
            && !LexLess(other.labels.planName, found.labels.planName)
  {
    var plans := Plans(cat, listed).value;
    PlansMeaning(cat, listed);
    PlansSearchable(cat, s, id, plans);
    FindInMeaning(s, id, plans);
    FirstMatchComesFirst(cat, s, id, listed, other);
  }
}
