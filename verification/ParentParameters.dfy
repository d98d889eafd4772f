/** A database knows its parent twice, as a label and as a parameter. When the two agree, and when not. */
module ParentParameters {
  import opened Types
  import opened Metadata
  import opened PlanPolicy
  import opened Store
  import opened Catalog
  import opened Requests
  import opened Instances
  import opened SerialRuns

  /** The parent parameter is present and equals the parent label. */
  predicate Agrees(c: Composite)
  {
    ParentIdLabel in c.labels && ParentRef(c.params) == Ok(c.labels[ParentIdLabel])
  }

  ghost predicate AllAgree(s: State)
  {
    forall k :: k in s.composites && k.gvk == SynTools(DatabaseKind) ==> Agrees(s.composites[k])
  }

  /** The event is not an Update that gives a database another parent. */
  ghost predicate KeepsParent(s: State, ev: Event)
  {
    ev.OnUpdate? && ev.raw.Decoded? && ParentRef(ev.raw.params).Ok? ==>
      forall k :: k in s.composites && k.gvk == SynTools(DatabaseKind) && k.name == ev.id ==>
        Agrees(s.composites[k].(params := ev.raw.params))
  }

  ghost predicate NeverReparents(cat: Catalog, pc: Checker, s: State, events: seq<Event>)
  {
    events == [] ||
    (var before := events[..|events| - 1];
     NeverReparents(cat, pc, s, before) && KeepsParent(Run(cat, pc, s, before), events[|events| - 1]))
  }

  // ---------------------------------------------------------------- Each event keeps the agreement

  /** A new object that the schema admits, with the label prepared from the same parameters, agrees. */
  lemma AddingAgrees(s: State, id: string, plan: Plan, params: Params, principal: Result<string>, w: Write)
    requires s.strict && AllAgree(s)
    requires PrepareLabels(id, plan, params, principal) == Ok(w.composite.labels) && w.composite.params == params
    requires Admits(s, w.key, params)
    ensures AllAgree(Put(s, w.key, w.composite))
  {
    PreparedLabelsCarry(id, plan, params, principal);
    assert w.key.gvk == SynTools(DatabaseKind) ==> Agrees(w.composite);
  }

  lemma CreatedIsAdmitted(s: State, key: Key, c: Composite)
    requires Create(s, key, c).Ok?
    ensures Admits(s, key, c.params)
  {
  }

  lemma ProvisionAgrees(cat: Catalog, pc: Checker, s: State, id: string, planId: string, raw: RawParams,
                        principal: Result<string>)
    requires WellFormed(cat) && s.strict && AllAgree(s)
    ensures var s' := Provision(cat, s, id, planId, raw, principal).state; AllAgree(s') && s'.strict
  {
    if Provision(cat, s, id, planId, raw, principal).reply == Ok(Provisioned) {
      var w, plan, params := ProvisionOutcome(cat, s, id, planId, raw, principal);
      CreatedIsAdmitted(s, w.key, w.composite);
      AddingAgrees(s, id, plan, params, principal, w);
    }
  }

  lemma UpdatedParams(s: State, serviceName: string, raw: RawParams, key: Key, params: Params)
    requires ServiceOf(serviceName) == Some(MariaDBDatabase)
    requires UpdateParams(s, serviceName, raw) == Ok(params)
    requires s.strict && key.gvk == SynTools(DatabaseKind) && Admits(s, key, params)
    ensures raw == Decoded(params) && ParentRef(params).Ok?
    ensures Key(SynTools(MariaDBKind), ParentRef(params).value) in s.composites
  {
    if !(raw.Absent? || raw.Empty?) {
      ValidatedParentExists(s, serviceName, raw, params);
    }
  }

  /** A successful Update of a database sets the parent parameter to that of the request, an existing
      cluster, and leaves the parent label. */
  lemma UpdateSetsParentParam(cat: Catalog, pc: Checker, s: State, id: string, serviceId: string, oldPlanId: string,
                              newPlanId: string, raw: RawParams, listed: seq<string>)
    returns (key: Key, plan: Plan, params: Params)
    requires WellFormed(cat) && SerialInv(cat, s) && Listing(cat, listed) && s.strict
    requires UpdateInstance(cat, pc, s, id, serviceId, oldPlanId, newPlanId, raw, listed).reply.Ok?
    ensures key in s.composites && key.name == id && InstanceGvk(key.gvk)
    ensures var s' := UpdateInstance(cat, pc, s, id, serviceId, oldPlanId, newPlanId, raw, listed).state;
            s' == Put(s, key, Retarget(s.composites[key], plan, params))
    ensures key.gvk == SynTools(DatabaseKind) ==>
              raw == Decoded(params) && ParentRef(params).Ok?
              && Key(SynTools(MariaDBKind), ParentRef(params).value) in s.composites
  {
    key, plan, params := UpdateEffect(cat, pc, s, id, serviceId, oldPlanId, newPlanId, raw, listed);
    if key.gvk == SynTools(DatabaseKind) {
      var serviceName := ParseLabels(s.composites[key].labels).value.serviceName;
      KindMatchesService(cat, key, s.composites[key]);
      ServiceGvkInjective(ServiceOf(serviceName).value, MariaDBDatabase);
      UpdatedParams(s, serviceName, raw, key, params);
    }
  }

  lemma UpdatedParentIff(s: State, serviceName: string, raw: RawParams, params: Params, parent: string)
    requires ServiceOf(serviceName) == Some(MariaDBDatabase)
    requires UpdateParams(s, serviceName, raw) == Ok(params)
    ensures ParentRef(params) == Ok(parent) <==> raw.Decoded? && ParentRef(raw.params) == Ok(parent)
  {
  }

  /** After a successful Update of a database whose label is set, whether or not the schema is enforced, label
      and parameter agree exactly when the request names the parent in the label. */
  lemma UpdateAgreesIff(cat: Catalog, pc: Checker, s: State, id: string, serviceId: string, oldPlanId: string,
                        newPlanId: string, raw: RawParams, listed: seq<string>)
    returns (key: Key)
    requires WellFormed(cat) && SerialInv(cat, s) && Listing(cat, listed)
    requires UpdateInstance(cat, pc, s, id, serviceId, oldPlanId, newPlanId, raw, listed).reply.Ok?
    ensures key in s.composites && key.name == id && InstanceGvk(key.gvk)
    ensures var s' := UpdateInstance(cat, pc, s, id, serviceId, oldPlanId, newPlanId, raw, listed).state;
            && key in s'.composites
            && (key.gvk == SynTools(DatabaseKind) && ParentIdLabel in s.composites[key].labels ==>
                  (Agrees(s'.composites[key])
                   <==> raw.Decoded? && ParentRef(raw.params) == Ok(s.composites[key].labels[ParentIdLabel])))
  {
    var plan, params;
    key, plan, params := UpdateEffect(cat, pc, s, id, serviceId, oldPlanId, newPlanId, raw, listed);
    var c := s.composites[key];
    RetargetLabels(c, plan, params);
    if key.gvk == SynTools(DatabaseKind) && ParentIdLabel in c.labels {
      var serviceName := ParseLabels(c.labels).value.serviceName;
      KindMatchesService(cat, key, c);
      ServiceGvkInjective(ServiceOf(serviceName).value, MariaDBDatabase);
      UpdatedParentIff(s, serviceName, raw, params, c.labels[ParentIdLabel]);
    }
  }

  lemma UpdateAgrees(cat: Catalog, pc: Checker, s: State, id: string, serviceId: string, oldPlanId: string,
                     newPlanId: string, raw: RawParams, listed: seq<string>)
    requires WellFormed(cat) && SerialInv(cat, s) && Listing(cat, listed) && s.strict && AllAgree(s)
    requires KeepsParent(s, OnUpdate(id, serviceId, oldPlanId, newPlanId, raw, listed))
    ensures var s' := UpdateInstance(cat, pc, s, id, serviceId, oldPlanId, newPlanId, raw, listed).state;
            AllAgree(s') && s'.strict
  {
    if UpdateInstance(cat, pc, s, id, serviceId, oldPlanId, newPlanId, raw, listed).reply.Ok? {
      var key, plan, params := UpdateSetsParentParam(cat, pc, s, id, serviceId, oldPlanId, newPlanId, raw, listed);
      RetargetLabels(s.composites[key], plan, params);
      if key.gvk == SynTools(DatabaseKind) {
        assert Agrees(s.composites[key].(params := params));
        assert Agrees(Retarget(s.composites[key], plan, params));
      }
    }
  }

  lemma DeprovisionAgrees(cat: Catalog, pc: Checker, s: State, id: string, planId: string, listed: seq<string>)
    requires WellFormed(cat) && SerialInv(cat, s) && Listing(cat, listed) && s.strict && AllAgree(s)
    ensures var s' := Deprovision(cat, s, id, planId, listed).state; AllAgree(s') && s'.strict
  {
    if Deprovision(cat, s, id, planId, listed).reply.Ok? {
      DeprovisionEffect(cat, pc, s, id, planId, listed);
    }
  }

  lemma OnlyBindingsAgree(s: State, s': State)
    requires OnlyBindings(s, s') && AllAgree(s)
    ensures AllAgree(s')
  {
  }

  lemma ApplyKeepsAgreement(cat: Catalog, pc: Checker, s: State, ev: Event)
    requires WellFormed(cat) && SerialInv(cat, s) && s.strict && AllAgree(s)
    requires Truthful(cat, ev) && KeepsParent(s, ev)
    ensures AllAgree(Apply(cat, pc, s, ev)) && Apply(cat, pc, s, ev).strict
  {
    match ev
    case OnProvision(id, planId, raw, principal) => ProvisionAgrees(cat, pc, s, id, planId, raw, principal);
    case OnUpdate(id, serviceId, oldPlanId, newPlanId, raw, listed) =>
      UpdateAgrees(cat, pc, s, id, serviceId, oldPlanId, newPlanId, raw, listed);
    case OnDeprovision(id, planId, listed) => DeprovisionAgrees(cat, pc, s, id, planId, listed);
    case OnBind(id, bindingId, planId, listed, password) =>
      BindEffect(cat, s, id, bindingId, planId, listed, password);
      OnlyBindingsAgree(s, Apply(cat, pc, s, ev));
    case OnUnbind(id, bindingId, planId, listed) =>
      UnbindEffect(cat, s, id, bindingId, planId, listed);
      OnlyBindingsAgree(s, Apply(cat, pc, s, ev));
    case OnController(key, ready, refs, connection) =>
    case OnComposeUser(bindingId, refs) =>
      ComposeUserEffect(s, bindingId, refs);
      OnlyBindingsAgree(s, Apply(cat, pc, s, ev));
    case OnRemoveUser(bindingId) =>
      RemoveUserEffect(s, bindingId);
      OnlyBindingsAgree(s, Apply(cat, pc, s, ev));
    case OnCollectSecret(name) =>
      CollectSecretEffect(s, name);
      OnlyBindingsAgree(s, Apply(cat, pc, s, ev));
    case OnFinishDelete(bindingId) =>
      FinishDeleteEffect(s, bindingId);
      OnlyBindingsAgree(s, Apply(cat, pc, s, ev));
  }

  lemma {:induction false} RunKeepsAgreement(cat: Catalog, pc: Checker, s: State, events: seq<Event>)
    requires WellFormed(cat) && SerialInv(cat, s) && s.strict && AllAgree(s)
    requires forall ev :: ev in events ==> Truthful(cat, ev)
    requires NeverReparents(cat, pc, s, events)
    ensures AllAgree(Run(cat, pc, s, events)) && Run(cat, pc, s, events).strict
  {
    if events != [] {
      var before := events[..|events| - 1];
      RunKeepsAgreement(cat, pc, s, before);
      RunKeepsInv(cat, pc, s, before);
      ApplyKeepsAgreement(cat, pc, Run(cat, pc, s, before), events[|events| - 1]);
    }
  }

  /** On every serial run from an initial store with an enforced schema and without re-parenting Updates, the two parent
      lookups of a database Bind read the same existing cluster: parameter and label agree, and the MariaDB
      instance they name is there. */
  lemma BothParentLookupsAgree(cat: Catalog, pc: Checker, init: State, events: seq<Event>, key: Key)
    requires WellFormed(cat) && Initial(init) && init.strict
    requires forall ev :: ev in events ==> Truthful(cat, ev)
    requires NeverReparents(cat, pc, init, events)
    requires var s := Run(cat, pc, init, events); key in s.composites && key.gvk == SynTools(DatabaseKind)
    ensures var s := Run(cat, pc, init, events);
            var c := s.composites[key];
            && ParseLabels(c.labels).Ok?
            && ParentRef(c.params) == Ok(ParseLabels(c.labels).value.parentId)
            && Key(SynTools(MariaDBKind), ParseLabels(c.labels).value.parentId) in s.composites
  {
    DatabaseIsInstance();
    InitialInv(cat, init);
    RunKeepsInv(cat, pc, init, events);
    RunKeepsAgreement(cat, pc, init, events);
    var s := Run(cat, pc, init, events);
    assert Agrees(s.composites[key]);
    InstanceParses(cat, key, s.composites[key]);
    ParsedParent(s.composites[key].labels);
  }

  lemma ParsedParent(labels: LabelMap)
    requires ParseLabels(labels).Ok?
    ensures ParseLabels(labels).value.parentId == Text(labels, ParentIdLabel)
  {
  }

  /** Re-parenting is possible, always: any database can be pointed to any other existing cluster by an Update
      that keeps its plan. From then on label and parameter disagree. */
  lemma ReparentingDiverges(cat: Catalog, pc: Checker, s: State, key: Key, plan: Plan, parent: string,
                            listed: seq<string>)
    requires WellFormed(cat) && SerialInv(cat, s) && Listing(cat, listed)
    requires key in s.composites && key.gvk == SynTools(DatabaseKind)
    requires StoredPlan(cat, s.composites[key]) == Ok(plan)
    requires ParentIdLabel in s.composites[key].labels && s.composites[key].labels[ParentIdLabel] != parent
    requires Key(SynTools(MariaDBKind), parent) in s.composites
    ensures var c := s.composites[key];
            var o := UpdateInstance(cat, pc, s, key.name, plan.labels.serviceId, c.compositionRef, c.compositionRef,
                                    Decoded(map[ParentReference := Str(parent)]), listed);
            && o.reply.Ok? && key in o.state.composites
            && ParentRef(o.state.composites[key].params) == Ok(parent)
            && Text(o.state.composites[key].labels, ParentIdLabel) == c.labels[ParentIdLabel]
            && !Agrees(o.state.composites[key])
  {
    DatabaseIsInstance();
    var c := s.composites[key];
    StoredInstanceIsFound(cat, s, key);
    InstanceParses(cat, key, c);
    KindMatchesService(cat, key, c);
    var labels := ParseLabels(c.labels).value;
    ServiceGvkInjective(ServiceOf(labels.serviceName).value, MariaDBDatabase);
    var found := Found(plan, Instance(key, c, labels));
    var params: Params := map[ParentReference := Str(parent)];
    var raw := Decoded(params);
    DecideSamePlan(cat, pc, s, found, params, listed);
    RetargetLabels(c, plan, params);
  }

  lemma DecideSamePlan(cat: Catalog, pc: Checker, s: State, found: Found, params: Params, listed: seq<string>)
    requires Find(cat, s, found.plan.name, found.instance.key.name, listed) == Ok(found)
    requires GetPlan(cat, found.plan.name) == Ok(found.plan) && PlanGvk(found.plan) == Ok(found.instance.key.gvk)
    requires found.plan.labels.serviceId == found.instance.labels.serviceId
    requires ServiceOf(found.instance.labels.serviceName) == Some(MariaDBDatabase)
    requires ParentReference in params && params[ParentReference].Str?
    requires Key(SynTools(MariaDBKind), params[ParentReference].s) in s.composites
    ensures DecideUpdate(cat, pc, s, found.instance.key.name, found.plan.labels.serviceId, found.plan.name,
                         found.plan.name,
                         Decoded(params), listed)
         == Ok(Write(found.instance.key, Retarget(found.instance.composite, found.plan, params)))
  {
    assert ValidateParams(s, found.instance.labels.serviceName, Decoded(params)) == Ok(params);
  }
}
