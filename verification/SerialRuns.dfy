/** Runs in which requests do not overlap: parent references, teardown, and what a request undoes. */
module SerialRuns {
  import opened Types
  import opened Metadata
  import opened PlanPolicy
  import opened Store
  import opened Catalog
  import opened Requests
  import opened Instances

  /** Everything that happens to the store, one thing after another. */
  datatype Event =
    | OnProvision(id: string, planId: string, raw: RawParams, principal: Result<string>)
    | OnUpdate(id: string, serviceId: string, oldPlanId: string, newPlanId: string, raw: RawParams, listed: seq<string>)
    | OnDeprovision(id: string, planId: string, listed: seq<string>)
    | OnBind(id: string, bindingId: string, planId: string, listed: seq<string>, password: Result<string>)
    | OnUnbind(id: string, bindingId: string, planId: string, listed: seq<string>)
    | OnController(key: Key, ready: bool, refs: seq<ResourceRef>, connection: Option<SecretName>)
    | OnComposeUser(bindingId: string, refs: seq<ResourceRef>)
    | OnRemoveUser(bindingId: string)
    | OnCollectSecret(secret: SecretName)
    | OnFinishDelete(bindingId: string)

  /** The API server lists compositions truthfully, in whatever order. */
  ghost predicate Truthful(cat: Catalog, ev: Event)
  {
    match ev
    case OnUpdate(_, _, _, _, _, listed) => Listing(cat, listed)
    case OnDeprovision(_, _, listed) => Listing(cat, listed)
    case OnBind(_, _, _, listed, _) => Listing(cat, listed)
    case OnUnbind(_, _, _, listed) => Listing(cat, listed)
    case _ => true
  }

  function Apply(cat: Catalog, pc: Checker, s: State, ev: Event): State
  {
    match ev
    case OnProvision(id, planId, raw, principal) => Provision(cat, s, id, planId, raw, principal).state
    case OnUpdate(id, serviceId, oldPlanId, newPlanId, raw, listed) =>
      UpdateInstance(cat, pc, s, id, serviceId, oldPlanId, newPlanId, raw, listed).state
    case OnDeprovision(id, planId, listed) => Deprovision(cat, s, id, planId, listed).state
    case OnBind(id, bindingId, planId, listed, password) => Bind(cat, s, id, bindingId, planId, listed, password).state
    case OnUnbind(id, bindingId, planId, listed) => Unbind(cat, s, id, bindingId, planId, listed).state
    case OnController(key, ready, refs, connection) => ControllerWrite(s, key, ready, refs, connection)
    case OnComposeUser(bindingId, refs) => ComposeUser(s, bindingId, refs)
    case OnRemoveUser(bindingId) => RemoveUser(s, bindingId)
    case OnCollectSecret(name) => CollectSecret(s, name)
    case OnFinishDelete(bindingId) => FinishDelete(s, bindingId)
  }

  function Run(cat: Catalog, pc: Checker, s: State, events: seq<Event>): State
  {
    if events == [] then s else Apply(cat, pc, Run(cat, pc, s, events[..|events| - 1]), events[|events| - 1])
  }

  // ---------------------------------------------------------------- The invariant

  /** Every database that carries a parent label names an existing MariaDB instance. */
  ghost predicate ParentsExist(s: State)
  {
    forall k :: k in s.composites && k.gvk == SynTools(DatabaseKind) && ParentIdLabel in s.composites[k].labels ==>
      Key(SynTools(MariaDBKind), s.composites[k].labels[ParentIdLabel]) in s.composites
  }

  ghost predicate SerialInv(cat: Catalog, s: State)
  {
    InstancesOk(cat, s) && VersionsOk(s) && ParentsExist(s)
  }

  lemma DatabaseIsInstance()
    ensures InstanceGvk(SynTools(DatabaseKind)) && InstanceGvk(SynTools(MariaDBKind))
            && InstanceGvk(SynTools(RedisKind))
    ensures !InstanceGvk(SynTools(UserKind))
  {
    assert SynTools(DatabaseKind) == ServiceGvk(MariaDBDatabase);
    assert SynTools(MariaDBKind) == ServiceGvk(MariaDB);
    assert SynTools(RedisKind) == ServiceGvk(Redis);
  }

  // ---------------------------------------------------------------- Effects of the requests

  /** A database is created only with a parent that exists at that moment. */
  ghost predicate ParentPresent(s: State, key: Key, c: Composite)
  {
    key.gvk == SynTools(DatabaseKind) && ParentIdLabel in c.labels ==>
      Key(SynTools(MariaDBKind), c.labels[ParentIdLabel]) in s.composites
  }

  /** The plan and the parameters behind the write that a Provision has decided on. */
  lemma ProvisionDecision(cat: Catalog, s: State, id: string, planId: string, raw: RawParams, principal: Result<string>)
    returns (plan: Plan, params: Params)
    requires DecideProvision(cat, s, id, planId, raw, principal).Ok?
    requires DecideProvision(cat, s, id, planId, raw, principal).value.Some?
    ensures GetPlan(cat, planId) == Ok(plan) && plan.name == planId
    ensures Lookup(s, id, plan) == Ok(None)
    ensures raw.Absent? ==> params == map[]
    ensures !raw.Absent? ==> ValidateParams(s, plan.labels.serviceName, raw) == Ok(params)
    ensures PrepareCreate(id, plan, params, principal)
            == Ok(DecideProvision(cat, s, id, planId, raw, principal).value.value)
  {
    plan := GetPlan(cat, planId).value;
    var validated := if raw.Absent? then Ok(map[]) else ValidateParams(s, plan.labels.serviceName, raw);
    params := validated.value;
  }

  lemma ValidatedParentExists(s: State, serviceName: string, raw: RawParams, params: Params)
    requires ServiceOf(serviceName) == Some(MariaDBDatabase)
    requires ValidateParams(s, serviceName, raw) == Ok(params)
    ensures raw == Decoded(params) && ParentReference in params && params[ParentReference].Str?
    ensures Key(SynTools(MariaDBKind), params[ParentReference].s) in s.composites
  {
  }

  lemma PreparedWrite(id: string, plan: Plan, params: Params, principal: Result<string>, w: Write)
    requires PrepareCreate(id, plan, params, principal) == Ok(w)
    ensures PrepareLabels(id, plan, params, principal) == Ok(w.composite.labels)
    ensures w.composite.params == params && w.composite.compositionRef == plan.name
    ensures PlanGvk(plan) == Ok(w.key.gvk) && w.key.name == id
  {
  }

  lemma MissingKey(s: State, id: string, plan: Plan, key: Key)
    requires PlanGvk(plan) == Ok(key.gvk) && key.name == id && Lookup(s, id, plan) == Ok(None)
    ensures key !in s.composites
  {
  }

  /** What a write prepared for a plan of the catalog looks like. */
  lemma CreateWriteFacts(cat: Catalog, s: State, id: string, plan: Plan, params: Params, principal: Result<string>,
                         w: Write)
    requires WellFormed(cat)
    requires GetPlan(cat, plan.name) == Ok(plan) && Lookup(s, id, plan) == Ok(None)
    requires PrepareCreate(id, plan, params, principal) == Ok(w)
    ensures PrepareLabels(id, plan, params, principal) == Ok(w.composite.labels)
    ensures w.composite.params == params && w.composite.compositionRef == plan.name
    ensures w.key.name == id && w.key !in s.composites && FreshInstance(cat, w)
    ensures PlanBuildsService(plan) && w.key.gvk == ServiceGvk(ServiceOf(plan.labels.serviceName).value)
  {
    PreparedWrite(id, plan, params, principal, w);
    MissingKey(s, id, plan, w.key);
    assert PlanBuildsService(plan);
  }

  lemma ProvisionTakesEffect(cat: Catalog, s: State, id: string, planId: string, raw: RawParams,
                             principal: Result<string>)
    returns (w: Write)
    requires Provision(cat, s, id, planId, raw, principal).reply == Ok(Provisioned)
    ensures DecideProvision(cat, s, id, planId, raw, principal) == Ok(Some(w))
    ensures Create(s, w.key, w.composite) == Ok(Put(s, w.key, w.composite))
    ensures Provision(cat, s, id, planId, raw, principal).state == Put(s, w.key, w.composite)
  {
    w := DecideProvision(cat, s, id, planId, raw, principal).value.value;
  }

  /** A database gets a parent label only with a parent that exists. */
  lemma ProvisionedParentPresent(cat: Catalog, s: State, id: string, plan: Plan, raw: RawParams, params: Params,
                                 principal: Result<string>, w: Write)
    requires ServiceOf(plan.labels.serviceName).Some?
             && w.key.gvk == ServiceGvk(ServiceOf(plan.labels.serviceName).value)
    requires PrepareLabels(id, plan, params, principal) == Ok(w.composite.labels)
    requires if raw.Absent? then params == map[] else ValidateParams(s, plan.labels.serviceName, raw) == Ok(params)
    ensures ParentPresent(s, w.key, w.composite)
  {
    PreparedLabelsCarry(id, plan, params, principal);
    if w.key.gvk == SynTools(DatabaseKind) && ParentIdLabel in w.composite.labels {
      ServiceGvkInjective(ServiceOf(plan.labels.serviceName).value, MariaDBDatabase);
      ValidatedParentExists(s, plan.labels.serviceName, raw, params);
    }
  }

  /** A Provision that creates an instance, described without the request: the object it adds, the plan and
      the parameters the object is made from. */
  lemma ProvisionOutcome(cat: Catalog, s: State, id: string, planId: string, raw: RawParams, principal: Result<string>)
    returns (w: Write, plan: Plan, params: Params)
    requires WellFormed(cat)
    requires Provision(cat, s, id, planId, raw, principal).reply == Ok(Provisioned)
    ensures Provision(cat, s, id, planId, raw, principal).state == Put(s, w.key, w.composite)
    ensures Create(s, w.key, w.composite) == Ok(Put(s, w.key, w.composite))
    ensures GetPlan(cat, planId) == Ok(plan) && plan.name == planId
    ensures if raw.Absent? then params == map[] else ValidateParams(s, plan.labels.serviceName, raw) == Ok(params)
    ensures PrepareLabels(id, plan, params, principal) == Ok(w.composite.labels)
    ensures w.composite.params == params && w.composite.compositionRef == planId
    ensures w.key.name == id && w.key !in s.composites && FreshInstance(cat, w) && InstanceGvk(w.key.gvk)
    ensures ParentPresent(s, w.key, w.composite)
  {
    w := ProvisionTakesEffect(cat, s, id, planId, raw, principal);
    plan, params := ProvisionDecision(cat, s, id, planId, raw, principal);
    CreateWriteFacts(cat, s, id, plan, params, principal, w);
    ProvisionedParentPresent(cat, s, id, plan, raw, params, principal, w);
  }

  /** A Deprovision that removes a MariaDB instance has found no database labelled with it. */
  lemma DeprovisionEffect(cat: Catalog, pc: Checker, s: State, id: string, planId: string, listed: seq<string>)
    requires WellFormed(cat) && InstancesOk(cat, s) && Listing(cat, listed)
    requires Deprovision(cat, s, id, planId, listed).reply.Ok?
    ensures DecideDeprovision(cat, s, id, planId, listed).Ok?
    ensures var key := DecideDeprovision(cat, s, id, planId, listed).value;
            && key in s.composites && key.name == id && InstanceGvk(key.gvk)
            && Deprovision(cat, s, id, planId, listed).state == Delete(s, key).value
            && (key.gvk == SynTools(MariaDBKind) ==> Children(s, id) == {})
  {
    FindMeaning(cat, s, planId, id, listed);
    var f := Find(cat, s, planId, id, listed).value;
    LookupMeaning(s, id, f.plan);
    assert PlanBuildsService(f.plan);
    KindMatchesService(cat, f.instance.key, f.instance.composite);
    if f.instance.key.gvk == SynTools(MariaDBKind) {
      ServiceGvkInjective(ServiceOf(f.instance.labels.serviceName).value, MariaDB);
    }
  }

  /** Facts about the write that an Update has decided on. */
  lemma UpdateDecision(cat: Catalog, pc: Checker, s: State, id: string, serviceId: string, oldPlanId: string,
                       newPlanId: string, raw: RawParams, listed: seq<string>)
    returns (found: Found, plan: Plan, params: Params)
    requires WellFormed(cat) && InstancesOk(cat, s) && Listing(cat, listed)
    requires DecideUpdate(cat, pc, s, id, serviceId, oldPlanId, newPlanId, raw, listed).Ok?
    ensures Find(cat, s, oldPlanId, id, listed) == Ok(found)
    ensures GetPlan(cat, found.plan.name) == Ok(found.plan) && Lookup(s, id, found.plan) == Ok(Some(found.instance))
    ensures GetPlan(cat, newPlanId) == Ok(plan) && plan.name == newPlanId
    ensures AllowUpdate(pc, found.plan.labels, plan.labels)
    ensures found.instance.labels.serviceId == serviceId
    ensures UpdateParams(s, found.instance.labels.serviceName, raw) == Ok(params)
    ensures PrepareUpdate(found.instance, plan, params)
         == DecideUpdate(cat, pc, s, id, serviceId, oldPlanId, newPlanId, raw, listed)
  {
    FindMeaning(cat, s, oldPlanId, id, listed);
    found := Find(cat, s, oldPlanId, id, listed).value;
    plan := GetPlan(cat, newPlanId).value;
    params := UpdateParams(s, found.instance.labels.serviceName, raw).value;
  }

  /** A successful Update rewrote the very object it had fetched: the new plan's kind is the instance's. */
  lemma UpdateEffect(cat: Catalog, pc: Checker, s: State, id: string, serviceId: string, oldPlanId: string,
                     newPlanId: string, raw: RawParams, listed: seq<string>)
    returns (key: Key, plan: Plan, params: Params)
    requires WellFormed(cat) && InstancesOk(cat, s) && VersionsOk(s) && Listing(cat, listed)
    requires UpdateInstance(cat, pc, s, id, serviceId, oldPlanId, newPlanId, raw, listed).reply.Ok?
    ensures key in s.composites && key.name == id && InstanceGvk(key.gvk)
    ensures GetPlan(cat, newPlanId) == Ok(plan)
    ensures ParseLabels(s.composites[key].labels).Ok?
    ensures UpdateParams(s, ParseLabels(s.composites[key].labels).value.serviceName, raw) == Ok(params)
    ensures Admits(s, key, params)
    ensures var s' := UpdateInstance(cat, pc, s, id, serviceId, oldPlanId, newPlanId, raw, listed).state;
            && s' == Put(s, key, Retarget(s.composites[key], plan, params))
            && Explains(cat, pc, PlanChanged(key), s, s')
            && key in s'.composites && OnlyRetargeted(s.composites[key], s'.composites[key], plan, params)
    ensures plan.name == newPlanId
  {
    var found;
    found, plan, params := UpdateDecision(cat, pc, s, id, serviceId, oldPlanId, newPlanId, raw, listed);
    LookupMeaning(s, id, found.plan);
    key := found.instance.key;
    var c := found.instance.composite;
    var w := PrepareUpdate(found.instance, plan, params).value;
    assert w.composite.version == c.version;
    assert w.key == key;
    assert PlanBuildsService(found.plan);
    UpdateExplained(cat, pc, s, key, c, found.plan, plan, params);
    RetargetFrame(s, key, plan, params);
  }

  /** Binding and unbinding touch only secrets and user composites. */
  ghost predicate OnlyBindings(s: State, s': State)
  {
    && s.clock <= s'.clock && s.strict == s'.strict
    && forall k: Key :: k.gvk != SynTools(UserKind) ==>
         (k in s.composites <==> k in s'.composites) && (k in s.composites ==> s.composites[k] == s'.composites[k])
  }

  lemma OnlyBindingsUntouched(cat: Catalog, pc: Checker, s: State, s': State)
    requires OnlyBindings(s, s')
    ensures Explains(cat, pc, Untouched, s, s')
  {
    DatabaseIsInstance();
  }

  lemma BindEffect(cat: Catalog, s: State, id: string, bindingId: string, planId: string, listed: seq<string>,
                   password: Result<string>)
    requires VersionsOk(s)
    ensures var s' := Bind(cat, s, id, bindingId, planId, listed, password).state;
            OnlyBindings(s, s') && VersionsOk(s')
  {
    match FindReady(cat, s, id, planId, listed)
    case Err(_) =>
    case Ok(instance) =>
      if ServiceOf(instance.labels.serviceName) == Some(MariaDBDatabase) {
        BindDatabaseEffect(s, instance, bindingId, password);
      }
  }

  lemma BindDatabaseEffect(s: State, instance: Instance, bindingId: string, password: Result<string>)
    requires VersionsOk(s)
    ensures var s' := BindDatabase(s, instance, bindingId, password).state;
            OnlyBindings(s, s') && VersionsOk(s')
  {
    match ParentRef(instance.composite.params)
    case Err(_) =>
    case Ok(parent) => CreateBindingEffect(s, bindingId, instance.key.name, parent, password);
  }

  lemma CreateBindingEffect(s: State, bindingId: string, instanceId: string, parent: string, password: Result<string>)
    requires VersionsOk(s)
    ensures var s' := CreateBinding(s, bindingId, instanceId, parent, password).state;
            OnlyBindings(s, s') && VersionsOk(s')
  {
    if password.Ok? {
      match CreateSecret(s, BindingPassword(bindingId), map[PasswordKey := password.value])
      case Err(_) =>
      case Ok(s1) => PutKeepsVersions(s1, UserKey(bindingId), UserComposite(instanceId, parent));
    }
  }

  lemma UnbindEffect(cat: Catalog, s: State, id: string, bindingId: string, planId: string, listed: seq<string>)
    requires VersionsOk(s)
    ensures var s' := Unbind(cat, s, id, bindingId, planId, listed).state;
            OnlyBindings(s, s') && VersionsOk(s')
  {
    match FindReady(cat, s, id, planId, listed)
    case Err(_) =>
    case Ok(instance) =>
      if ServiceOf(instance.labels.serviceName) == Some(MariaDBDatabase) {
        UnbindDatabaseEffect(s, bindingId);
      }
  }

  lemma UnbindDatabaseEffect(s: State, bindingId: string)
    requires VersionsOk(s)
    ensures var s' := UnbindDatabase(s, bindingId).state;
            OnlyBindings(s, s') && VersionsOk(s')
  {
    match MarkCredentials(s, bindingId)
    case Err(_) =>
    case Ok(s1) =>
      if UserKey(bindingId) in s1.composites {
        PutKeepsVersions(s1, UserKey(bindingId), s1.composites[UserKey(bindingId)].(deleting := true));
      }
  }

  lemma ComposeUserEffect(s: State, bindingId: string, refs: seq<ResourceRef>)
    requires VersionsOk(s)
    ensures OnlyBindings(s, ComposeUser(s, bindingId, refs)) && VersionsOk(ComposeUser(s, bindingId, refs))
  {
    var key := UserKey(bindingId);
    if key in s.composites {
      PutKeepsVersions(s, key, s.composites[key].(refs := refs));
    }
  }

  lemma RemoveUserEffect(s: State, bindingId: string)
    requires VersionsOk(s)
    ensures OnlyBindings(s, RemoveUser(s, bindingId)) && VersionsOk(RemoveUser(s, bindingId))
  {
  }

  lemma CollectSecretEffect(s: State, name: SecretName)
    requires VersionsOk(s)
    ensures OnlyBindings(s, CollectSecret(s, name)) && VersionsOk(CollectSecret(s, name))
  {
  }

  lemma FinishDeleteEffect(s: State, bindingId: string)
    requires VersionsOk(s)
    ensures OnlyBindings(s, FinishDelete(s, bindingId)) && VersionsOk(FinishDelete(s, bindingId))
  {
  }

  // ---------------------------------------------------------------- Every event keeps the invariant

  lemma UntouchedKeeps(cat: Catalog, pc: Checker, s: State, s': State)
    requires SerialInv(cat, s) && OnlyBindings(s, s') && VersionsOk(s')
    ensures SerialInv(cat, s')
  {
    OnlyBindingsUntouched(cat, pc, s, s');
    ExplainedKeepsInstances(cat, pc, Untouched, s, s');
  }

  /** A write that keeps the labels a database and its parent are connected by keeps all parents. */
  lemma SameIdentityKeepsParents(s: State, s': State, key: Key)
    requires ParentsExist(s)
    requires key in s.composites && s'.composites.Keys == s.composites.Keys
    requires forall k :: k in s.composites && k != key ==> s'.composites[k] == s.composites[k]
    requires SameIdentity(s.composites[key], s'.composites[key])
    ensures ParentsExist(s')
  {
  }

  lemma AddingKeepsParents(s: State, key: Key, c: Composite)
    requires ParentsExist(s) && key !in s.composites && ParentPresent(s, key, c)
    ensures ParentsExist(Put(s, key, c))
  {
  }

  lemma CreationKeeps(cat: Catalog, pc: Checker, s: State, w: Write)
    requires SerialInv(cat, s) && FreshInstance(cat, w) && ParentPresent(s, w.key, w.composite)
    requires Create(s, w.key, w.composite) == Ok(Put(s, w.key, w.composite))
    ensures SerialInv(cat, Put(s, w.key, w.composite))
  {
    CreateExplained(cat, pc, s, w);
    AddingKeepsParents(s, w.key, w.composite);
    PutKeepsVersions(s, w.key, w.composite);
    ExplainedKeepsInstances(cat, pc, Created(w.key), s, Put(s, w.key, w.composite));
  }

  lemma ProvisionKeeps(cat: Catalog, pc: Checker, s: State, id: string, planId: string, raw: RawParams,
                       principal: Result<string>)
    requires WellFormed(cat) && SerialInv(cat, s)
    ensures SerialInv(cat, Provision(cat, s, id, planId, raw, principal).state)
  {
    if Provision(cat, s, id, planId, raw, principal).reply == Ok(Provisioned) {
      var w, plan, params := ProvisionOutcome(cat, s, id, planId, raw, principal);
      CreationKeeps(cat, pc, s, w);
    }
  }

  lemma PlanChangeKeeps(cat: Catalog, pc: Checker, s: State, key: Key, d: Composite)
    requires SerialInv(cat, s) && key in s.composites && Explains(cat, pc, PlanChanged(key), s, Put(s, key, d))
    ensures SerialInv(cat, Put(s, key, d))
  {
    PutKeepsVersions(s, key, d);
    ExplainedKeepsInstances(cat, pc, PlanChanged(key), s, Put(s, key, d));
    SameIdentityKeepsParents(s, Put(s, key, d), key);
  }

  lemma UpdateKeeps(cat: Catalog, pc: Checker, s: State, id: string, serviceId: string, oldPlanId: string,
                    newPlanId: string, raw: RawParams, listed: seq<string>)
    requires WellFormed(cat) && SerialInv(cat, s) && Listing(cat, listed)
    ensures SerialInv(cat, UpdateInstance(cat, pc, s, id, serviceId, oldPlanId, newPlanId, raw, listed).state)
  {
    if UpdateInstance(cat, pc, s, id, serviceId, oldPlanId, newPlanId, raw, listed).reply.Ok? {
      var key, plan, params := UpdateEffect(cat, pc, s, id, serviceId, oldPlanId, newPlanId, raw, listed);
      PlanChangeKeeps(cat, pc, s, key, Retarget(s.composites[key], plan, params));
    }
  }

  lemma RemovalKeepsParents(s: State, key: Key)
    requires ParentsExist(s) && key in s.composites
    requires key.gvk == SynTools(MariaDBKind) ==> Children(s, key.name) == {}
    ensures ParentsExist(Delete(s, key).value)
  {
    forall k | k in s.composites && k != key && k.gvk == SynTools(DatabaseKind)
               && ParentIdLabel in s.composites[k].labels
      ensures Key(SynTools(MariaDBKind), s.composites[k].labels[ParentIdLabel]) != key
    {
      ChildrenMeaning(s, key.name, k.name);
    }
  }

  lemma DeprovisionKeeps(cat: Catalog, pc: Checker, s: State, id: string, planId: string, listed: seq<string>)
    requires WellFormed(cat) && SerialInv(cat, s) && Listing(cat, listed)
    ensures SerialInv(cat, Deprovision(cat, s, id, planId, listed).state)
  {
    if Deprovision(cat, s, id, planId, listed).reply.Ok? {
      DeprovisionEffect(cat, pc, s, id, planId, listed);
      RemovalKeepsParents(s, DecideDeprovision(cat, s, id, planId, listed).value);
    }
  }

  lemma ControllerKeeps(cat: Catalog, pc: Checker, s: State, key: Key, ready: bool, refs: seq<ResourceRef>,
                        connection: Option<SecretName>)
    requires SerialInv(cat, s)
    ensures SerialInv(cat, ControllerWrite(s, key, ready, refs, connection))
  {
    if key in s.composites {
      var s' := ControllerWrite(s, key, ready, refs, connection);
      PutKeepsVersions(s, key, s.composites[key].(ready := ready, refs := refs, connection := connection));
      assert Explains(cat, pc, StatusChanged(key), s, s');
      ExplainedKeepsInstances(cat, pc, StatusChanged(key), s, s');
      SameIdentityKeepsParents(s, s', key);
    }
  }

  /** Every request and every act of the controller or the garbage collector keeps the invariant. */
  lemma ApplyKeepsInv(cat: Catalog, pc: Checker, s: State, ev: Event)
    requires WellFormed(cat) && SerialInv(cat, s) && Truthful(cat, ev)
    ensures SerialInv(cat, Apply(cat, pc, s, ev))
  {
    match ev
    case OnProvision(id, planId, raw, principal) => ProvisionKeeps(cat, pc, s, id, planId, raw, principal);
    case OnUpdate(id, serviceId, oldPlanId, newPlanId, raw, listed) =>
      UpdateKeeps(cat, pc, s, id, serviceId, oldPlanId, newPlanId, raw, listed);
    case OnDeprovision(id, planId, listed) => DeprovisionKeeps(cat, pc, s, id, planId, listed);
    case OnBind(id, bindingId, planId, listed, password) =>
      BindEffect(cat, s, id, bindingId, planId, listed, password);
      UntouchedKeeps(cat, pc, s, Apply(cat, pc, s, ev));
    case OnUnbind(id, bindingId, planId, listed) =>
      UnbindEffect(cat, s, id, bindingId, planId, listed);
      UntouchedKeeps(cat, pc, s, Apply(cat, pc, s, ev));
    case OnController(key, ready, refs, connection) => ControllerKeeps(cat, pc, s, key, ready, refs, connection);
    case OnComposeUser(bindingId, refs) =>
      ComposeUserEffect(s, bindingId, refs);
      UntouchedKeeps(cat, pc, s, Apply(cat, pc, s, ev));
    case OnRemoveUser(bindingId) =>
      RemoveUserEffect(s, bindingId);
      UntouchedKeeps(cat, pc, s, Apply(cat, pc, s, ev));
    case OnCollectSecret(name) =>
      CollectSecretEffect(s, name);
      UntouchedKeeps(cat, pc, s, Apply(cat, pc, s, ev));
    case OnFinishDelete(bindingId) =>
      FinishDeleteEffect(s, bindingId);
      UntouchedKeeps(cat, pc, s, Apply(cat, pc, s, ev));
  }

  /** A store in which the broker has not worked yet: it holds no service instances. */
  ghost predicate Initial(s: State)
  {
    VersionsOk(s) && forall k :: k in s.composites ==> !InstanceGvk(k.gvk)
  }

  lemma InitialInv(cat: Catalog, s: State)
    requires Initial(s)
    ensures SerialInv(cat, s)
  {
    DatabaseIsInstance();
  }

  /** Over every serial run, each database with a parent label names an existing MariaDB instance, and every
      instance is well formed. */
  lemma {:induction false} RunKeepsInv(cat: Catalog, pc: Checker, s: State, events: seq<Event>)
    requires WellFormed(cat) && SerialInv(cat, s)
    requires forall ev :: ev in events ==> Truthful(cat, ev)
    ensures SerialInv(cat, Run(cat, pc, s, events))
  {
    if events != [] {
      RunKeepsInv(cat, pc, s, events[..|events| - 1]);
      ApplyKeepsInv(cat, pc, Run(cat, pc, s, events[..|events| - 1]), events[|events| - 1]);
    }
  }

  /** The states that serial runs reach. */
  ghost predicate Reachable(cat: Catalog, pc: Checker, s: State)
  {
    exists init: State, events: seq<Event> ::
      Initial(init) && (forall ev :: ev in events ==> Truthful(cat, ev)) && Run(cat, pc, init, events) == s
  }

  lemma ReachableInv(cat: Catalog, pc: Checker, s: State)
    requires WellFormed(cat) && Reachable(cat, pc, s)
    ensures SerialInv(cat, s)
  {
    var init: State, events: seq<Event> :|
      Initial(init) && (forall ev :: ev in events ==> Truthful(cat, ev)) && Run(cat, pc, init, events) == s;
    InitialInv(cat, init);
    RunKeepsInv(cat, pc, init, events);
  }

  // ---------------------------------------------------------------- Requests touch one object

  /** The two states differ at most in the composite under one key. */
  ghost predicate OnlyAt(s: State, s': State, key: Key)
  {
    && s'.secrets == s.secrets && s'.users == s.users && s'.strict == s.strict
    && forall k: Key :: k != key ==> (k in s.composites <==> k in s'.composites)
                                     && (k in s.composites ==> s.composites[k] == s'.composites[k])
  }

  /** The only difference is one composite of this name, which is new. */
  ghost predicate Adds(s: State, s': State, id: string)
  {
    exists key: Key :: key.name == id && OnlyAt(s, s', key) && key !in s.composites && key in s'.composites
  }

  /** The only difference is in one composite of this name. */
  ghost predicate Rewrites(s: State, s': State, id: string)
  {
    exists key: Key :: key.name == id && OnlyAt(s, s', key) && key in s.composites && key in s'.composites
  }

  /** The only difference is one composite of this name, which is gone. */
  ghost predicate Removes(s: State, s': State, id: string)
  {
    exists key: Key :: key.name == id && OnlyAt(s, s', key) && key in s.composites && key !in s'.composites
  }

  lemma PutIsOnlyAt(s: State, key: Key, c: Composite)
    ensures OnlyAt(s, Put(s, key, c), key) && key in Put(s, key, c).composites
  {
  }

  /** Whatever a request found carries the id of the request. */
  lemma FoundHasId(cat: Catalog, s: State, planId: string, id: string, listed: seq<string>)
    requires Find(cat, s, planId, id, listed).Ok?
    ensures Find(cat, s, planId, id, listed).value.instance.key.name == id
  {
    var f := Find(cat, s, planId, id, listed).value;
    if planId == "" {
      FindInMeaning(s, id, Plans(cat, listed).value);
    }
    LookupMeaning(s, id, f.plan);
  }

  lemma ProvisionChangesOne(cat: Catalog, s: State, id: string, planId: string, raw: RawParams,
                            principal: Result<string>)
    ensures var o := Provision(cat, s, id, planId, raw, principal);
            if o.reply == Ok(Provisioned) then Adds(s, o.state, id) else o.state == s
  {
    if Provision(cat, s, id, planId, raw, principal).reply == Ok(Provisioned) {
      var w := ProvisionTakesEffect(cat, s, id, planId, raw, principal);
      var plan, params := ProvisionDecision(cat, s, id, planId, raw, principal);
      PreparedWrite(id, plan, params, principal, w);
      PutIsOnlyAt(s, w.key, w.composite);
    }
  }

  lemma UpdateChangesOne(cat: Catalog, pc: Checker, s: State, id: string, serviceId: string, oldPlanId: string,
                         newPlanId: string, raw: RawParams, listed: seq<string>)
    ensures var o := UpdateInstance(cat, pc, s, id, serviceId, oldPlanId, newPlanId, raw, listed);
            if o.reply.Ok? then Rewrites(s, o.state, id) else o.state == s
  {
    if UpdateInstance(cat, pc, s, id, serviceId, oldPlanId, newPlanId, raw, listed).reply.Ok? {
      FoundHasId(cat, s, oldPlanId, id, listed);
      var w := DecideUpdate(cat, pc, s, id, serviceId, oldPlanId, newPlanId, raw, listed).value;
      assert w.key.name == id;
      PutIsOnlyAt(s, w.key, w.composite);
    }
  }

  lemma DeprovisionChangesOne(cat: Catalog, s: State, id: string, planId: string, listed: seq<string>)
    ensures var o := Deprovision(cat, s, id, planId, listed);
            if o.reply.Ok? then Removes(s, o.state, id) else o.state == s
  {
    if Deprovision(cat, s, id, planId, listed).reply.Ok? {
      FoundHasId(cat, s, planId, id, listed);
      var key := DecideDeprovision(cat, s, id, planId, listed).value;
      assert OnlyAt(s, Delete(s, key).value, key);
    }
  }

  /** For every request and every store, an error leaves the store as it was; a success changes the one
      addressed object and nothing else: Provision adds it, Deprovision removes it, and Update rewrites it. */
  lemma RequestsChangeOneObject(cat: Catalog, pc: Checker, s: State, ev: Event)
    ensures ev.OnProvision? ==>
              var o := Provision(cat, s, ev.id, ev.planId, ev.raw, ev.principal);
              if o.reply == Ok(Provisioned) then Adds(s, o.state, ev.id) else o.state == s
    ensures ev.OnUpdate? ==>
              var o := UpdateInstance(cat, pc, s, ev.id, ev.serviceId, ev.oldPlanId, ev.newPlanId, ev.raw, ev.listed);
              if o.reply.Ok? then Rewrites(s, o.state, ev.id) else o.state == s
    ensures ev.OnDeprovision? ==>
              var o := Deprovision(cat, s, ev.id, ev.planId, ev.listed);
              if o.reply.Ok? then Removes(s, o.state, ev.id) else o.state == s
  {
    match ev
    case OnProvision(id, planId, raw, principal) => ProvisionChangesOne(cat, s, id, planId, raw, principal);
    case OnUpdate(id, serviceId, oldPlanId, newPlanId, raw, listed) =>
      UpdateChangesOne(cat, pc, s, id, serviceId, oldPlanId, newPlanId, raw, listed);
    case OnDeprovision(id, planId, listed) => DeprovisionChangesOne(cat, s, id, planId, listed);
    case _ =>
  }

  /** Binding and unbinding a Redis or MariaDB-cluster instance never change the store. */
  lemma OtherServicesBindWithoutWriting(cat: Catalog, s: State, id: string, bindingId: string, planId: string,
                                        listed: seq<string>, password: Result<string>)
    requires FindReady(cat, s, id, planId, listed).Ok?
    requires ServiceOf(FindReady(cat, s, id, planId, listed).value.labels.serviceName) != Some(MariaDBDatabase)
    ensures Bind(cat, s, id, bindingId, planId, listed, password).state == s
    ensures Unbind(cat, s, id, bindingId, planId, listed).state == s
  {
  }
}
