/** What requests undo, and what they report back, in the states that serial runs reach. */
module Lifecycle {
  import opened Types
  import opened Metadata
  import opened PlanPolicy
  import opened Store
  import opened Catalog
  import opened Requests
  import opened Instances
  import opened SerialRuns
  import Admission
  import Answers

  // ---------------------------------------------------------------- Deprovisioning a stored instance

  /** Deprovisioning an instance through the plan it is on removes it, unless it is a MariaDB instance in
      use: then the request is refused and names the databases in the way. */
  lemma DeprovisionStored(cat: Catalog, s: State, key: Key, listed: seq<string>)
    requires WellFormed(cat) && InstancesOk(cat, s)
    requires key in s.composites && InstanceGvk(key.gvk)
    ensures Deprovision(cat, s, key.name, s.composites[key].compositionRef, listed)
         == if key.gvk == SynTools(MariaDBKind) && Children(s, key.name) != {}
            then Outcome(s, Err(InUse(Children(s, key.name))))
            else Outcome(Delete(s, key).value, Ok(()))
  {
    var c := s.composites[key];
    StoredInstanceIsFound(cat, s, key);
    KindMatchesService(cat, key, c);
    var service := ServiceOf(ParseLabels(c.labels).value.serviceName).value;
    if key.gvk == SynTools(MariaDBKind) {
      ServiceGvkInjective(service, MariaDB);
    }
    var f := Found(StoredPlan(cat, c).value, Instance(key, c, ParseLabels(c.labels).value));
    assert Find(cat, s, c.compositionRef, key.name, listed) == Ok(f);
    assert PlanGvk(f.plan) == Ok(key.gvk);
  }

  // ---------------------------------------------------------------- Teardown

  function ParentKey(id: string): Key
  {
    Key(SynTools(MariaDBKind), id)
  }

  function ChildKey(name: string): Key
  {
    Key(SynTools(DatabaseKind), name)
  }

  function DeprovisionKey(cat: Catalog, s: State, key: Key): Outcome<()>
  {
    if key in s.composites then Deprovision(cat, s, key.name, s.composites[key].compositionRef, [])
    else Outcome(s, Err(NotFound))
  }

  /** Deprovisioning the named databases in turn succeeds each time. Until the last one is gone the
      parent's Deprovision is refused with exactly the remaining databases, one fewer each time; then it
      succeeds. Nothing else is removed. */
  ghost predicate TearsDown(cat: Catalog, s: State, id: string, names: seq<string>)
    decreases |names|
  {
    if names == [] then
      && DeprovisionKey(cat, s, ParentKey(id)).reply.Ok?
      && DeprovisionKey(cat, s, ParentKey(id)).state.composites == s.composites - {ParentKey(id)}
    else
      var child := DeprovisionKey(cat, s, ChildKey(names[0]));
      && |Children(s, id)| == |names|
      && DeprovisionKey(cat, s, ParentKey(id)) == Outcome(s, Err(InUse(Children(s, id))))
      && child.reply.Ok?
      && child.state.composites == s.composites - {ChildKey(names[0])}
      && Children(child.state, id) == Children(s, id) - {names[0]}
      && TearsDown(cat, child.state, id, names[1..])
  }

  ghost predicate Distinct(names: seq<string>)
  {
    forall i, j :: 0 <= i < j < |names| ==> names[i] != names[j]
  }

  /** The names list the databases of a parent, each once. */
  ghost predicate ListsChildren(s: State, id: string, names: seq<string>)
  {
    Distinct(names) && forall n :: n in names <==> n in Children(s, id)
  }

  lemma AllButFirst(names: seq<string>, n: string)
    requires Distinct(names) && names != []
    ensures n in names[1..] <==> n in names && n != names[0]
  {
    if n in names[1..] {
      var i :| 0 <= i < |names[1..]| && names[1..][i] == n;
      assert names[i + 1] == n;
    }
  }

  lemma {:induction false} ListedCount(names: seq<string>, children: set<string>)
    requires Distinct(names) && forall n :: n in names <==> n in children
    ensures |children| == |names|
  {
    if names == [] {
      assert children == {};
    } else {
      var rest := children - {names[0]};
      forall n ensures n in names[1..] <==> n in rest {
        AllButFirst(names, n);
      }
      ListedCount(names[1..], rest);
      assert children == rest + {names[0]};
    }
  }

  lemma RemoveChild(s: State, id: string, names: seq<string>)
    requires ListsChildren(s, id, names) && names != []
    requires ChildKey(names[0]) in s.composites
    ensures var s' := Delete(s, ChildKey(names[0])).value;
            Children(s', id) == Children(s, id) - {names[0]} && ListsChildren(s', id, names[1..])
  {
    var s' := Delete(s, ChildKey(names[0])).value;
    forall n ensures n in Children(s', id) <==> n in Children(s, id) && n != names[0] {
      ChildrenMeaning(s, id, n);
      ChildrenMeaning(s', id, n);
    }
    forall n ensures n in names[1..] <==> n in Children(s', id) {
      AllButFirst(names, n);
    }
  }

  lemma DeprovisionParent(cat: Catalog, s: State, id: string)
    requires WellFormed(cat) && InstancesOk(cat, s) && ParentKey(id) in s.composites
    ensures DeprovisionKey(cat, s, ParentKey(id))
         == if Children(s, id) != {} then Outcome(s, Err(InUse(Children(s, id))))
            else Outcome(Delete(s, ParentKey(id)).value, Ok(()))
  {
    DatabaseIsInstance();
    DeprovisionStored(cat, s, ParentKey(id), []);
  }

  lemma DeprovisionChild(cat: Catalog, s: State, name: string)
    requires WellFormed(cat) && InstancesOk(cat, s) && ChildKey(name) in s.composites
    ensures DeprovisionKey(cat, s, ChildKey(name)) == Outcome(Delete(s, ChildKey(name)).value, Ok(()))
  {
    DatabaseIsInstance();
    DeprovisionStored(cat, s, ChildKey(name), []);
  }

  lemma RemovalKeepsInv(cat: Catalog, s: State, name: string)
    requires SerialInv(cat, s) && ChildKey(name) in s.composites
    ensures SerialInv(cat, Delete(s, ChildKey(name)).value)
  {
    RemovalKeepsParents(s, ChildKey(name));
  }

  lemma TearDownStep(cat: Catalog, s: State, id: string, names: seq<string>) returns (s': State)
    requires WellFormed(cat) && SerialInv(cat, s)
    requires ParentKey(id) in s.composites && ListsChildren(s, id, names) && names != []
    ensures SerialInv(cat, s') && ParentKey(id) in s'.composites && ListsChildren(s', id, names[1..])
    ensures |Children(s, id)| == |names|
    ensures DeprovisionKey(cat, s, ParentKey(id)) == Outcome(s, Err(InUse(Children(s, id))))
    ensures DeprovisionKey(cat, s, ChildKey(names[0])) == Outcome(s', Ok(()))
    ensures s'.composites == s.composites - {ChildKey(names[0])}
    ensures Children(s', id) == Children(s, id) - {names[0]}
  {
    ListedCount(names, Children(s, id));
    assert names[0] in Children(s, id);
    ChildrenMeaning(s, id, names[0]);
    DeprovisionParent(cat, s, id);
    DeprovisionChild(cat, s, names[0]);
    RemoveChild(s, id, names);
    RemovalKeepsInv(cat, s, names[0]);
    s' := Delete(s, ChildKey(names[0])).value;
  }

  /** From every state with the serial invariant, any MariaDB instance can be torn down, in any order of its
      databases: as many steps as there are databases, each successful, and then the instance itself. */
  lemma {:induction false} TearDownSucceeds(cat: Catalog, s: State, id: string, names: seq<string>)
    requires WellFormed(cat) && SerialInv(cat, s)
    requires ParentKey(id) in s.composites
    requires ListsChildren(s, id, names)
    ensures TearsDown(cat, s, id, names)
    decreases |names|
  {
    if names == [] {
      assert Children(s, id) == {};
      DeprovisionParent(cat, s, id);
    } else {
      var s' := TearDownStep(cat, s, id, names);
      TearDownSucceeds(cat, s', id, names[1..]);
    }
  }

  /** Teardown in reachable states, and there is always such a list of databases to work through. */
  lemma AnyClusterCanBeTornDown(cat: Catalog, pc: Checker, s: State, id: string) returns (names: seq<string>)
    requires WellFormed(cat) && Reachable(cat, pc, s)
    requires ParentKey(id) in s.composites
    ensures ListsChildren(s, id, names) && TearsDown(cat, s, id, names)
  {
    ReachableInv(cat, pc, s);
    names := ListSet(Children(s, id));
    TearDownSucceeds(cat, s, id, names);
  }

  lemma {:induction false} ListSet(items: set<string>) returns (names: seq<string>)
    ensures Distinct(names) && forall n :: n in names <==> n in items
  {
    if items == {} {
      names := [];
    } else {
      var x :| x in items;
      var rest := ListSet(items - {x});
      names := [x] + rest;
    }
  }

  // ---------------------------------------------------------------- Deprovision undoes Provision

  /** No database can already be waiting, by its label, for a MariaDB instance that does not exist. */
  lemma NoChildrenWaiting(s: State, id: string)
    requires ParentsExist(s) && ParentKey(id) !in s.composites
    ensures Children(s, id) == {}
  {
    forall n ensures n !in Children(s, id) {
      ChildrenMeaning(s, id, n);
    }
  }

  lemma CreatedParentHasNoChildren(s: State, w: Write)
    requires ParentsExist(s) && w.key !in s.composites && w.key.gvk == SynTools(MariaDBKind)
    ensures Children(Put(s, w.key, w.composite), w.key.name) == {}
  {
    NoChildrenWaiting(s, w.key.name);
    forall n ensures n !in Children(Put(s, w.key, w.composite), w.key.name) {
      ChildrenMeaning(s, w.key.name, n);
      ChildrenMeaning(Put(s, w.key, w.composite), w.key.name, n);
    }
  }

  /** The state after a Provision, described without the request. */
  lemma ProvisionedState(cat: Catalog, pc: Checker, s: State, id: string, planId: string, raw: RawParams,
                         principal: Result<string>)
    returns (w: Write)
    requires WellFormed(cat) && SerialInv(cat, s)
    requires Provision(cat, s, id, planId, raw, principal).reply == Ok(Provisioned)
    ensures Provision(cat, s, id, planId, raw, principal).state == Put(s, w.key, w.composite)
    ensures w.key.name == id && w.composite.compositionRef == planId && InstanceGvk(w.key.gvk) && w.key !in s.composites
    ensures SerialInv(cat, Put(s, w.key, w.composite))
  {
    var plan, params;
    w, plan, params := ProvisionOutcome(cat, s, id, planId, raw, principal);
    CreationKeeps(cat, pc, s, w);
  }

  lemma DeprovisionFresh(cat: Catalog, s: State, w: Write, listed: seq<string>)
    requires WellFormed(cat) && ParentsExist(s) && InstancesOk(cat, Put(s, w.key, w.composite))
    requires w.key !in s.composites && InstanceGvk(w.key.gvk)
    ensures var o := Deprovision(cat, Put(s, w.key, w.composite), w.key.name, w.composite.compositionRef, listed);
            && o.reply.Ok?
            && o.state.composites == s.composites && o.state.secrets == s.secrets && o.state.users == s.users
  {
    var s1 := Put(s, w.key, w.composite);
    if w.key.gvk == SynTools(MariaDBKind) {
      CreatedParentHasNoChildren(s, w);
    }
    DeprovisionStored(cat, s1, w.key, listed);
    assert s1.composites - {w.key} == s.composites;
  }

  /** In every reachable state, a Provision that creates an instance followed by its Deprovision succeeds
      and restores the objects of the store exactly. */
  lemma DeprovisionUndoesProvision(cat: Catalog, pc: Checker, s: State, id: string, planId: string, raw: RawParams,
                                   principal: Result<string>, listed: seq<string>)
    requires WellFormed(cat) && Reachable(cat, pc, s)
    requires Provision(cat, s, id, planId, raw, principal).reply == Ok(Provisioned)
    ensures var s1 := Provision(cat, s, id, planId, raw, principal).state;
            var o := Deprovision(cat, s1, id, planId, listed);
            && o.reply.Ok?
            && o.state.composites == s.composites && o.state.secrets == s.secrets && o.state.users == s.users
  {
    ReachableInv(cat, pc, s);
    var w := ProvisionedState(cat, pc, s, id, planId, raw, principal);
    DeprovisionFresh(cat, s, w, listed);
  }

  // ---------------------------------------------------------------- What GetInstance reports

  /** The parameters an instance of a service ends up with: Redis keeps what it is given with `tls` made a
      boolean, a MariaDB cluster takes none, a database keeps what it is given. */
  ghost predicate ServiceParams(service: Service, raw: RawParams, params: Params)
  {
    match service
    case MariaDB => params == map[]
    case MariaDBDatabase => raw == Decoded(params)
    case Redis =>
      && raw.Decoded?
      && params.Keys == raw.params.Keys
      && (forall k :: k in params && k != Tls ==> params[k] == raw.params[k])
      && (Tls in params ==> params[Tls] == match raw.params[Tls] case Array(items) => Bool(items != []) case v => v)
  }

  lemma ValidatedParams(s: State, serviceName: string, raw: RawParams, params: Params)
    requires ValidateParams(s, serviceName, raw) == Ok(params)
    ensures ServiceOf(serviceName).Some? && ServiceParams(ServiceOf(serviceName).value, raw, params)
  {
  }

  /** What is stored is what is reported, with the plan id. */
  lemma StoredIsReported(cat: Catalog, s: State, key: Key, listed: seq<string>)
    requires WellFormed(cat) && InstancesOk(cat, s)
    requires key in s.composites && InstanceGvk(key.gvk)
    ensures var c := s.composites[key];
            GetInstance(cat, s, key.name, c.compositionRef, listed)
            == Ok(InstanceInfo(c.compositionRef, StoredPlan(cat, c).value.labels.serviceId, c.params))
  {
    StoredInstanceIsFound(cat, s, key);
  }

  /** Without it, if the id is used under one kind and its plan belongs to a configured service, the report is
      the same exactly if every composition of every configured service has labels that parse. */
  lemma PlanlessReportAgrees(cat: Catalog, s: State, key: Key, listed: seq<string>)
    requires WellFormed(cat) && InstancesOk(cat, s) && Listing(cat, listed)
    requires UnderOneKind(cat, s, key.name, key) && Selected(cat, s.composites[key].compositionRef)
    ensures GetInstance(cat, s, key.name, "", listed)
            == GetInstance(cat, s, key.name, s.composites[key].compositionRef, listed)
            <==> AllPlansParse(cat)
  {
    PlanlessFindsThePlan(cat, s, key.name, key, listed);
    StoredInstanceIsFound(cat, s, key);
  }

  /** After a Provision, GetInstance reports the plan, the plan's service and the normalised parameters. If the
      id is used under one kind only and the plan belongs to a configured service, it does so without the plan
      id as well, exactly if every composition of every configured service has labels that parse. */
  lemma ProvisionThenGet(cat: Catalog, pc: Checker, s: State, id: string, planId: string, raw: RawParams,
                         principal: Result<string>, listed: seq<string>)
    returns (key: Key, plan: Plan, params: Params)
    requires WellFormed(cat) && SerialInv(cat, s)
    requires Provision(cat, s, id, planId, raw, principal).reply == Ok(Provisioned)
    ensures GetPlan(cat, planId) == Ok(plan)
    ensures if raw.Absent? then params == map[]
            else ServiceOf(plan.labels.serviceName).Some?
                 && ServiceParams(ServiceOf(plan.labels.serviceName).value, raw, params)
    ensures var s' := Provision(cat, s, id, planId, raw, principal).state;
            && key.name == id && key in s'.composites && s'.composites[key].compositionRef == planId
            && GetInstance(cat, s', id, planId, listed) == Ok(InstanceInfo(planId, plan.labels.serviceId, params))
            && (Listing(cat, listed) && UnderOneKind(cat, s', id, key) && Selected(cat, planId) ==>
                  (GetInstance(cat, s', id, "", listed) == Ok(InstanceInfo(planId, plan.labels.serviceId, params))
                   <==> AllPlansParse(cat)))
  {
    var w;
    w, plan, params := ProvisionOutcome(cat, s, id, planId, raw, principal);
    CreationKeeps(cat, pc, s, w);
    key := w.key;
    if !raw.Absent? {
      ValidatedParams(s, plan.labels.serviceName, raw, params);
    }
    var s' := Put(s, w.key, w.composite);
    StoredIsReported(cat, s', key, listed);
    if Listing(cat, listed) && UnderOneKind(cat, s', id, key) && Selected(cat, planId) {
      PlanlessReportAgrees(cat, s', key, listed);
    }
  }

  /** After an Update, GetInstance reports the new plan, the unchanged service id and the parameters of the
      Update request alone, normalised as the service demands: whatever parameters the instance had before
      are gone. */
  lemma UpdateThenGet(cat: Catalog, pc: Checker, s: State, id: string, serviceId: string, oldPlanId: string,
                      newPlanId: string, raw: RawParams, listed: seq<string>)
    returns (service: Service, params: Params)
    requires WellFormed(cat) && SerialInv(cat, s) && Listing(cat, listed)
    requires UpdateInstance(cat, pc, s, id, serviceId, oldPlanId, newPlanId, raw, listed).reply.Ok?
    ensures Key(ServiceGvk(service), id) in s.composites
    ensures if raw.Absent? || raw.Empty? then params == map[] else ServiceParams(service, raw, params)
    ensures GetInstance(cat, UpdateInstance(cat, pc, s, id, serviceId, oldPlanId, newPlanId, raw, listed).state, id,
                        newPlanId, listed)
         == Ok(InstanceInfo(newPlanId, serviceId, params))
  {
    var found, plan, ps := UpdateDecision(cat, pc, s, id, serviceId, oldPlanId, newPlanId, raw, listed);
    var key, plan', params' := UpdateEffect(cat, pc, s, id, serviceId, oldPlanId, newPlanId, raw, listed);
    UpdateKeeps(cat, pc, s, id, serviceId, oldPlanId, newPlanId, raw, listed);
    var s' := Put(s, key, Retarget(s.composites[key], plan', params'));
    params := params';
    LookupMeaning(s, id, found.plan);
    MatchingPlanIsStored(cat, found.instance.key, found.instance.composite, found.plan);
    InstanceParses(cat, found.instance.key, found.instance.composite);
    AllowedUpdateFollowsRules(pc, found.plan.labels, plan.labels);
    StoredIsReported(cat, s', key, listed);
    service := UpdatedParams(cat, s, key, raw, params);
  }

  lemma UpdatedParams(cat: Catalog, s: State, key: Key, raw: RawParams, params: Params) returns (service: Service)
    requires WellFormed(cat) && InstancesOk(cat, s) && key in s.composites && InstanceGvk(key.gvk)
    requires ParseLabels(s.composites[key].labels).Ok?
    requires UpdateParams(s, ParseLabels(s.composites[key].labels).value.serviceName, raw) == Ok(params)
    ensures key.gvk == ServiceGvk(service)
    ensures if raw.Absent? || raw.Empty? then params == map[] else ServiceParams(service, raw, params)
  {
    KindMatchesService(cat, key, s.composites[key]);
    var name := ParseLabels(s.composites[key].labels).value.serviceName;
    service := ServiceOf(name).value;
    if !(raw.Absent? || raw.Empty?) {
      ValidatedParams(s, name, raw, params);
    }
  }

  /** An Update without parameters keeps the instance's parameters exactly when there are none: the stored
      parameters are overwritten with the empty map. */
  lemma PlainUpdateKeepsParamsIff(cat: Catalog, pc: Checker, s: State, id: string, serviceId: string, oldPlanId: string,
                                  newPlanId: string, raw: RawParams, listed: seq<string>)
    returns (key: Key)
    requires WellFormed(cat) && SerialInv(cat, s) && Listing(cat, listed)
    requires raw.Absent? || raw.Empty?
    requires UpdateInstance(cat, pc, s, id, serviceId, oldPlanId, newPlanId, raw, listed).reply.Ok?
    ensures key in s.composites && key.name == id && InstanceGvk(key.gvk)
    ensures var s' := UpdateInstance(cat, pc, s, id, serviceId, oldPlanId, newPlanId, raw, listed).state;
            && key in s'.composites
            && (s'.composites[key].params == s.composites[key].params <==> s.composites[key].params == map[])
  {
    var plan, params;
    key, plan, params := UpdateEffect(cat, pc, s, id, serviceId, oldPlanId, newPlanId, raw, listed);
  }

  // ---------------------------------------------------------------- What a Bind leaves behind and hands out

  /** A user composite as a Bind creates it. */
  ghost predicate NewUserComposite(c: Composite, instanceId: string, parent: string)
  {
    && c.compositionRef == "mariadb-user"
    && c.params == map[ParentReference := Str(parent)]
    && c.labels.Keys == {InstanceIdLabel, ParentIdLabel, OwnerApiVersionLabel, OwnerGroupLabel, OwnerKindLabel}
    && c.labels[InstanceIdLabel] == instanceId && c.labels[ParentIdLabel] == parent
    && c.labels[OwnerApiVersionLabel] == "v1alpha1" && c.labels[OwnerGroupLabel] == "syn.tools"
    && c.labels[OwnerKindLabel] == "CompositeMariaDBUserInstance"
    && !c.ready && !c.deleting && c.refs == [] && c.connection.None?
  }

  lemma UserCompositeIsNew(instanceId: string, parent: string, version: nat)
    ensures NewUserComposite(UserComposite(instanceId, parent).(version := version), instanceId, parent)
  {
  }

  /** A database Bind that returns credentials has added the password secret, and has added the user composite
      unless there was one; nothing else changes. The credentials name the endpoint of the cluster that the
      parent parameter points to, the binding id as the user, the password that is now stored, the database, and
      the cluster that the parent label points to. */
  lemma BindHandsOut(s: State, instance: Instance, bindingId: string, password: Result<string>) returns (parent: string)
    requires BindDatabase(s, instance, bindingId, password).reply.Ok?
    ensures ParentRef(instance.composite.params) == Ok(parent) && Key(SynTools(MariaDBKind), parent) in s.composites
    ensures Key(SynTools(MariaDBKind), instance.labels.parentId) in s.composites
    ensures var o := BindDatabase(s, instance, bindingId, password);
            var cluster := s.composites[Key(SynTools(MariaDBKind), parent)];
            var c := o.reply.value;
            && password == Ok(c.password) && c.username == bindingId
            && BindingPassword(bindingId) !in s.secrets && BindingPassword(bindingId) in o.state.secrets
            && o.state.secrets[BindingPassword(bindingId)].data == map[PasswordKey := c.password]
            && o.state.secrets - {BindingPassword(bindingId)} == s.secrets
            && o.state.users == s.users && UserKey(bindingId) in o.state.composites
            && o.state.composites - {UserKey(bindingId)} == s.composites - {UserKey(bindingId)}
            && (UserKey(bindingId) in s.composites ==> o.state.composites == s.composites)
            && (UserKey(bindingId) !in s.composites ==>
                  NewUserComposite(o.state.composites[UserKey(bindingId)], instance.key.name, parent))
            && cluster.connection.Some? && cluster.connection.value in o.state.secrets
            && var data := o.state.secrets[cluster.connection.value].data;
               EndpointKey in data && PortKey in data && c.host == data[EndpointKey] && c.port == data[PortKey]
               && c.database == instance.key.name && c.parent == instance.labels.parentId
               && c.cluster == Text(s.composites[Key(SynTools(MariaDBKind), instance.labels.parentId)].labels,
                                    ClusterLabel)
  {
    parent := ParentRef(instance.composite.params).value;
    var created := CreateBinding(s, bindingId, instance.key.name, parent, password);
    CreateBindingMeaning(s, bindingId, instance.key.name, parent, password);
    var cluster := s.composites[Key(SynTools(MariaDBKind), parent)];
    BindCredentialsMeaning(created.state, instance, cluster, bindingId, password.value);
  }

  lemma CreateBindingMeaning(s: State, bindingId: string, instanceId: string, parent: string, password: Result<string>)
    requires CreateBinding(s, bindingId, instanceId, parent, password).reply.Ok?
    ensures var o := CreateBinding(s, bindingId, instanceId, parent, password);
            && o.reply == password
            && BindingPassword(bindingId) !in s.secrets && BindingPassword(bindingId) in o.state.secrets
            && o.state.secrets[BindingPassword(bindingId)].data == map[PasswordKey := password.value]
            && o.state.secrets - {BindingPassword(bindingId)} == s.secrets
            && o.state.users == s.users && UserKey(bindingId) in o.state.composites
            && o.state.composites - {UserKey(bindingId)} == s.composites - {UserKey(bindingId)}
            && (UserKey(bindingId) in s.composites ==> o.state.composites == s.composites)
            && (UserKey(bindingId) !in s.composites ==>
                  NewUserComposite(o.state.composites[UserKey(bindingId)], instanceId, parent))
  {
    var s1 := CreateSecret(s, BindingPassword(bindingId), map[PasswordKey := password.value]).value;
    UserCompositeIsNew(instanceId, parent, s1.clock);
    assert s1.secrets - {BindingPassword(bindingId)} == s.secrets;
  }

  lemma BindCredentialsMeaning(s: State, instance: Instance, cluster: Composite, bindingId: string, password: string)
    requires BindCredentials(s, instance, cluster, bindingId, password).Ok?
    ensures var c := BindCredentials(s, instance, cluster, bindingId, password).value;
            && c.username == bindingId && c.password == password
            && c.database == instance.key.name && c.parent == instance.labels.parentId
            && cluster.connection.Some? && cluster.connection.value in s.secrets
            && (var data := s.secrets[cluster.connection.value].data;
                EndpointKey in data && PortKey in data && c.host == data[EndpointKey] && c.port == data[PortKey])
            && (var key := Key(SynTools(MariaDBKind), instance.labels.parentId);
                key in s.composites && c.cluster == Text(s.composites[key].labels, ClusterLabel))
  {
  }

  /** A Bind that has written anything, whether it then returned credentials or failed, cannot be repeated under
      the same binding id: with any password, the next attempt is refused and changes nothing. */
  lemma BindIsOnce(s: State, instance: Instance, bindingId: string, password: Result<string>, next: string)
    requires BindDatabase(s, instance, bindingId, password).state != s
    ensures var s' := BindDatabase(s, instance, bindingId, password).state;
            BindDatabase(s', instance, bindingId, Ok(next)) == Outcome(s', Err(AlreadyExists))
  {
    var parent := ParentRef(instance.composite.params).value;
    var cluster := Key(SynTools(MariaDBKind), parent);
    var s' := BindDatabase(s, instance, bindingId, password).state;
    assert s' == CreateBinding(s, bindingId, instance.key.name, parent, password).state;
    assert cluster in s'.composites && BindingPassword(bindingId) in s'.secrets;
  }

  // ---------------------------------------------------------------- What each request promises

  /** The instance of this id has moved to this plan, along the rules, and kept its identity and all that an
      Update does not concern. */
  ghost predicate MovesPlan(cat: Catalog, pc: Checker, s: State, s': State, id: string, planId: string)
  {
    exists key: Key ::
      key.name == id && key in s.composites && key in s'.composites && Explains(cat, pc, PlanChanged(key), s, s')
      && GetPlan(cat, planId).Ok? && s'.composites[key].compositionRef == planId
      && OnlyRetargeted(s.composites[key], s'.composites[key], GetPlan(cat, planId).value, s'.composites[key].params)
  }

  /** A freshly provisioned instance: labels, parameters and composition are set, and it is neither ready nor
      connected to anything. */
  ghost predicate NewInstance(c: Composite, id: string, plan: Plan, params: Params, principal: string)
  {
    && NewLabels(c.labels, id, plan, params, principal)
    && c.params == params && c.compositionRef == plan.name
    && !c.ready && !c.deleting && c.refs == [] && c.connection.None?
  }

  /** Some object of this id is a freshly provisioned instance of this plan. */
  ghost predicate StoresNew(cat: Catalog, s: State, id: string, planId: string, principal: Result<string>)
  {
    principal.Ok? && GetPlan(cat, planId).Ok?
    && exists key: Key ::
         key.name == id && key in s.composites && PlanGvk(GetPlan(cat, planId).value) == Ok(key.gvk)
         && NewInstance(s.composites[key], id, GetPlan(cat, planId).value, s.composites[key].params, principal.value)
  }

  lemma PreparedIsNew(s: State, id: string, plan: Plan, params: Params, principal: Result<string>, w: Write)
    requires PrepareCreate(id, plan, params, principal) == Ok(w)
    ensures principal.Ok?
    ensures NewInstance(Put(s, w.key, w.composite).composites[w.key], id, plan, params, principal.value)
  {
    PreparedLabelsAreNew(id, plan, params, principal);
  }

  /** What a Provision that creates an instance stores, for any store. */
  lemma ProvisionStoresNew(cat: Catalog, s: State, id: string, planId: string, raw: RawParams,
                           principal: Result<string>)
    requires Provision(cat, s, id, planId, raw, principal).reply == Ok(Provisioned)
    ensures StoresNew(cat, Provision(cat, s, id, planId, raw, principal).state, id, planId, principal)
  {
    var w := ProvisionTakesEffect(cat, s, id, planId, raw, principal);
    var plan, params := ProvisionDecision(cat, s, id, planId, raw, principal);
    PreparedWrite(id, plan, params, principal, w);
    PreparedIsNew(s, id, plan, params, principal, w);
    assert w.key in Put(s, w.key, w.composite).composites;
  }

  lemma UpdateMovesPlan(cat: Catalog, pc: Checker, s: State, id: string, serviceId: string, oldPlanId: string,
                        newPlanId: string, raw: RawParams, listed: seq<string>)
    requires WellFormed(cat) && SerialInv(cat, s) && Listing(cat, listed)
    ensures var o := UpdateInstance(cat, pc, s, id, serviceId, oldPlanId, newPlanId, raw, listed);
            SerialInv(cat, o.state) && (o.reply.Ok? ==> MovesPlan(cat, pc, s, o.state, id, newPlanId))
  {
    UpdateKeeps(cat, pc, s, id, serviceId, oldPlanId, newPlanId, raw, listed);
    if UpdateInstance(cat, pc, s, id, serviceId, oldPlanId, newPlanId, raw, listed).reply.Ok? {
      var key, plan, params := UpdateEffect(cat, pc, s, id, serviceId, oldPlanId, newPlanId, raw, listed);
    }
  }

  /** The report is about a stored object of this id and a plan of the catalog that fits it. */
  ghost predicate Reports(cat: Catalog, s: State, id: string, info: InstanceInfo)
  {
    exists key: Key ::
      key.name == id && key in s.composites && s.composites[key].params == info.params
      && GetPlan(cat, info.planId).Ok? && PlanGvk(GetPlan(cat, info.planId).value) == Ok(key.gvk)
      && GetPlan(cat, info.planId).value.labels.serviceId == info.serviceId
      && GetPlan(cat, info.planId).value.labels.planName == Text(s.composites[key].labels, PlanNameLabel)
  }

  lemma GetInstanceReports(cat: Catalog, s: State, id: string, planId: string, listed: seq<string>)
    requires Listing(cat, listed) && GetInstance(cat, s, id, planId, listed).Ok?
    ensures Reports(cat, s, id, GetInstance(cat, s, id, planId, listed).value)
  {
    FindMeaning(cat, s, planId, id, listed);
    var found := Find(cat, s, planId, id, listed).value;
    LookupMeaning(s, id, found.plan);
    assert s.composites[found.instance.key].params == GetInstance(cat, s, id, planId, listed).value.params;
  }

  /** This password, and nothing else, is stored for the binding. */
  predicate StoresPassword(s: State, bindingId: string, password: string)
  {
    BindingPassword(bindingId) in s.secrets
    && s.secrets[BindingPassword(bindingId)].data == map[PasswordKey := password]
  }

  /** Credentials of a database: the endpoint of the cluster that the parent parameter names, the binding id and
      the stored password, the database, and the labelled cluster. */
  ghost predicate DatabaseCredentials(s: State, instance: Instance, bindingId: string, c: Credentials)
  {
    && StoresPassword(s, bindingId, c.password) && c.username == bindingId
    && c.database == instance.key.name && c.parent == instance.labels.parentId
    && ParentReference in instance.composite.params && instance.composite.params[ParentReference].Str?
    && (var key := Key(SynTools(MariaDBKind), instance.composite.params[ParentReference].s);
        && key in s.composites && s.composites[key].connection.Some?
        && s.composites[key].connection.value in s.secrets
        && var data := s.secrets[s.composites[key].connection.value].data;
           EndpointKey in data && c.host == data[EndpointKey] && PortKey in data && c.port == data[PortKey])
    && (var key := Key(SynTools(MariaDBKind), instance.labels.parentId);
        key in s.composites && c.cluster == Text(s.composites[key].labels, ClusterLabel))
  }

  /** The credentials are what the store holds for the instance and the binding. */
  ghost predicate HandsOut(s: State, instance: Instance, bindingId: string, c: Credentials)
  {
    match ServiceOf(instance.labels.serviceName)
    case Some(Redis) => Answers.RedisCredentials(s, instance, c)
    case Some(MariaDBDatabase) => DatabaseCredentials(s, instance, bindingId, c)
    case _ => false
  }

  /** Composites other than the binding's own are as before. */
  lemma SameElsewhere(a: map<Key, Composite>, b: map<Key, Composite>, gone: Key, k: Key)
    requires a - {gone} == b - {gone} && k != gone
    ensures k in a <==> k in b
    ensures k in a ==> a[k] == b[k]
  {
    assert k in a <==> k in a - {gone};
    assert k in b <==> k in b - {gone};
    if k in a {
      assert (a - {gone})[k] == a[k] && (b - {gone})[k] == b[k];
    }
  }

  lemma DatabaseBindFits(s: State, instance: Instance, bindingId: string, password: Result<string>)
    requires BindDatabase(s, instance, bindingId, password).reply.Ok?
    ensures var o := BindDatabase(s, instance, bindingId, password);
            DatabaseCredentials(o.state, instance, bindingId, o.reply.value)
  {
    var o := BindDatabase(s, instance, bindingId, password);
    var parent := BindHandsOut(s, instance, bindingId, password);
    SameElsewhere(s.composites, o.state.composites, UserKey(bindingId), Key(SynTools(MariaDBKind), parent));
    SameElsewhere(s.composites, o.state.composites, UserKey(bindingId),
                  Key(SynTools(MariaDBKind), instance.labels.parentId));
  }

  /** Whatever a Bind hands out is what the store then holds. */
  lemma BindFits(cat: Catalog, s: State, id: string, bindingId: string, planId: string, listed: seq<string>,
                 password: Result<string>)
    requires Bind(cat, s, id, bindingId, planId, listed, password).reply.Ok?
    ensures FindReady(cat, s, id, planId, listed).Ok?
    ensures var o := Bind(cat, s, id, bindingId, planId, listed, password);
            HandsOut(o.state, FindReady(cat, s, id, planId, listed).value, bindingId, o.reply.value)
  {
    var instance := FindReady(cat, s, id, planId, listed).value;
    match ServiceOf(instance.labels.serviceName)
    case Some(Redis) => Answers.RedisHandsOut(s, instance);
    case Some(MariaDBDatabase) => DatabaseBindFits(s, instance, bindingId, password);
    case _ =>
  }

  /** A Bind leaves instances alone; credentials that it wrote anything for carry the password now stored. */
  lemma BindPromises(cat: Catalog, pc: Checker, s: State, id: string, bindingId: string, planId: string,
                     listed: seq<string>, password: Result<string>)
    ensures var o := Bind(cat, s, id, bindingId, planId, listed, password);
            && (SerialInv(cat, s) ==> OnlyBindings(s, o.state) && SerialInv(cat, o.state))
            && (o.reply.Ok? && o.state != s ==>
                  password == Ok(o.reply.value.password) && BindingPassword(bindingId) !in s.secrets
                  && StoresPassword(o.state, bindingId, o.reply.value.password))
  {
    var o := Bind(cat, s, id, bindingId, planId, listed, password);
    if SerialInv(cat, s) {
      BindEffect(cat, s, id, bindingId, planId, listed, password);
      UntouchedKeeps(cat, pc, s, o.state);
    }
    if o.reply.Ok? && o.state != s {
      var instance := FindReady(cat, s, id, planId, listed).value;
      assert o == BindDatabase(s, instance, bindingId, password);
      var parent := BindHandsOut(s, instance, bindingId, password);
    }
  }

  /** The binding's secret belongs to the User of its composite, and the composite is marked for deletion. */
  predicate MarkedForDeletion(s: State, bindingId: string)
  {
    && UserKey(bindingId) in s.composites && s.composites[UserKey(bindingId)].deleting
    && BindingPassword(bindingId) in s.secrets && LastUser(s.composites[UserKey(bindingId)].refs).Some?
    && s.secrets[BindingPassword(bindingId)].owner == LastUser(s.composites[UserKey(bindingId)].refs)
  }

  lemma UnbindMarks(s: State, bindingId: string)
    ensures var o := UnbindDatabase(s, bindingId);
            if o.reply.Ok? then MarkedForDeletion(o.state, bindingId) else o.state == s
  {
    Admission.DatabaseUnbindSucceedsIff(s, bindingId);
  }

  /** An Unbind leaves instances alone, changes nothing when it fails, and otherwise marks the binding. */
  lemma UnbindPromises(cat: Catalog, pc: Checker, s: State, id: string, bindingId: string, planId: string,
                       listed: seq<string>)
    ensures var o := Unbind(cat, s, id, bindingId, planId, listed);
            && (SerialInv(cat, s) ==> OnlyBindings(s, o.state) && SerialInv(cat, o.state))
            && (o.reply.Err? ==> o.state == s)
            && (o.state != s ==> MarkedForDeletion(o.state, bindingId))
  {
    UnbindMarks(s, bindingId);
    if SerialInv(cat, s) {
      UnbindEffect(cat, s, id, bindingId, planId, listed);
      UntouchedKeeps(cat, pc, s, Unbind(cat, s, id, bindingId, planId, listed).state);
    }
  }
}
