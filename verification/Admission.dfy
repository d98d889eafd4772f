/** Exactly which requests succeed. */
module Admission {
  import opened Types
  import opened Metadata
  import opened PlanPolicy
  import opened Store
  import opened Catalog
  import opened Requests
  import opened Instances

  // ---------------------------------------------------------------- Parameters

  /** The service accepts the parameters of a request: a MariaDB cluster ignores them, Redis wants a JSON object,
      and a database wants one that names an existing cluster. */
  predicate Accepts(s: State, service: Service, raw: RawParams)
  {
    match service
    case MariaDB => true
    case Redis => raw.Decoded?
    case MariaDBDatabase =>
      && raw.Decoded? && ParentReference in raw.params && raw.params[ParentReference].Str?
      && Key(SynTools(MariaDBKind), raw.params[ParentReference].s) in s.composites
  }

  lemma AcceptedParams(s: State, name: string, service: Service, raw: RawParams)
    requires ServiceOf(name) == Some(service)
    ensures ValidateParams(s, name, raw).Ok? <==> Accepts(s, service, raw)
    ensures Accepts(s, service, raw) ==>
              ValidateParams(s, name, raw) == Ok(match service
                                                 case MariaDB => map[]
                                                 case Redis => NormaliseTls(raw.params)
                                                 case MariaDBDatabase => raw.params)
  {
  }

  /** A parent reference, if there is one, is text or null. */
  predicate ParentIsTextual(params: Params)
  {
    ParentReference in params ==> params[ParentReference].Str? || params[ParentReference].Null?
  }

  /** The schema lets a new or changed object of the service have no parameters. */
  predicate MayBeBare(s: State, service: Service)
  {
    !(s.strict && service == MariaDBDatabase)
  }

  // ---------------------------------------------------------------- Provision

  predicate ProvisionAccepts(s: State, service: Service, raw: RawParams)
  {
    if raw.Absent? then MayBeBare(s, service)
    else Accepts(s, service, raw) && (service == Redis ==> ParentIsTextual(raw.params))
  }

  /** The id is a name, free under the service's kind, the principal is known, and the parameters fit. */
  predicate MayProvision(s: State, service: Service, id: string, raw: RawParams, principal: Result<string>)
  {
    && id != "" && Key(ServiceGvk(service), id) !in s.composites
    && principal.Ok? && ProvisionAccepts(s, service, raw)
  }

  lemma PreparedIff(id: string, plan: Plan, params: Params, principal: Result<string>, gvk: Gvk)
    requires PlanGvk(plan) == Ok(gvk)
    ensures PrepareCreate(id, plan, params, principal).Ok? <==> principal.Ok? && ParentIsTextual(params)
    ensures PrepareCreate(id, plan, params, principal).Ok? ==>
              var w := PrepareCreate(id, plan, params, principal).value;
              w.key == Key(gvk, id) && w.composite.params == params
  {
  }

  lemma AdmittedIff(s: State, service: Service, id: string, params: Params)
    ensures Admits(s, Key(ServiceGvk(service), id), params)
            <==> MayBeBare(s, service) || (ParentReference in params && params[ParentReference].Str?)
  {
  }

  lemma ProvisionParamsIff(s: State, name: string, service: Service, raw: RawParams)
    requires ServiceOf(name) == Some(service)
    ensures ProvisionAccepts(s, service, raw)
            <==> var r := ProvisionParams(s, name, raw);
                 r.Ok? && ParentIsTextual(r.value)
                 && (MayBeBare(s, service) || (ParentReference in r.value && r.value[ParentReference].Str?))
  {
    AcceptedParams(s, name, service, raw);
  }

  /** A Provision from where nothing is stored under its key. */
  lemma ProvisionOfMissing(cat: Catalog, s: State, id: string, plan: Plan, raw: RawParams, principal: Result<string>)
    requires GetPlan(cat, plan.name) == Ok(plan) && Lookup(s, id, plan) == Ok(None)
    ensures Provision(cat, s, id, plan.name, raw, principal).reply == Ok(Provisioned)
            <==> var params := ProvisionParams(s, plan.labels.serviceName, raw);
                 params.Ok?
                 && var w := PrepareCreate(id, plan, params.value, principal);
                    w.Ok? && Create(s, w.value.key, w.value.composite).Ok?
  {
  }

  lemma ProvisionOfStored(cat: Catalog, s: State, id: string, plan: Plan, raw: RawParams, principal: Result<string>)
    requires GetPlan(cat, plan.name) == Ok(plan) && Lookup(s, id, plan) != Ok(None)
    ensures Provision(cat, s, id, plan.name, raw, principal).reply != Ok(Provisioned)
  {
  }

  lemma MissingIff(s: State, id: string, plan: Plan, gvk: Gvk)
    requires PlanGvk(plan) == Ok(gvk)
    ensures Lookup(s, id, plan) == Ok(None) <==> Key(gvk, id) !in s.composites
  {
  }

  /** A Provision creates an instance exactly when the id is a name, free under the plan's kind, the principal is
      known, and the service and the schema accept the parameters. In particular a database can be created
      without a parent exactly when the request has no parameters at all and the schema is not enforced. */
  lemma ProvisionSucceedsIff(cat: Catalog, s: State, id: string, plan: Plan, raw: RawParams, principal: Result<string>,
                             service: Service)
    requires WellFormed(cat) && GetPlan(cat, plan.name) == Ok(plan)
    requires ServiceOf(plan.labels.serviceName) == Some(service)
    ensures Provision(cat, s, id, plan.name, raw, principal).reply == Ok(Provisioned)
            <==> MayProvision(s, service, id, raw, principal)
  {
    assert PlanBuildsService(plan);
    var key := Key(ServiceGvk(service), id);
    MissingIff(s, id, plan, key.gvk);
    if key in s.composites {
      ProvisionOfStored(cat, s, id, plan, raw, principal);
    } else {
      ProvisionOfMissing(cat, s, id, plan, raw, principal);
      ProvisionParamsIff(s, plan.labels.serviceName, service, raw);
      var params := ProvisionParams(s, plan.labels.serviceName, raw);
      if params.Ok? {
        PreparedIff(id, plan, params.value, principal, key.gvk);
        AdmittedIff(s, service, id, params.value);
      }
    }
  }

  // ---------------------------------------------------------------- Update

  predicate UpdateAccepts(s: State, service: Service, raw: RawParams)
  {
    if raw.Absent? || raw.Empty? then MayBeBare(s, service) else Accepts(s, service, raw)
  }

  lemma UpdateParamsIff(s: State, name: string, service: Service, raw: RawParams)
    requires ServiceOf(name) == Some(service)
    ensures UpdateAccepts(s, service, raw)
            <==> var r := UpdateParams(s, name, raw);
                 r.Ok? && (MayBeBare(s, service) || (ParentReference in r.value && r.value[ParentReference].Str?))
  {
    AcceptedParams(s, name, service, raw);
  }

  /** Writing a fetched object back succeeds exactly under its own key: under another kind there is either no
      object of that name, or one with another version. */
  lemma WriteBackIff(s: State, key: Key, gvk: Gvk, plan: Plan, params: Params)
    requires VersionsOk(s) && key in s.composites
    ensures Store.Update(s, Key(gvk, key.name), Retarget(s.composites[key], plan, params)).Ok?
            <==> gvk == key.gvk && Admits(s, key, params)
  {
  }

  lemma UpdateOfFound(cat: Catalog, pc: Checker, s: State, id: string, serviceId: string, oldPlanId: string,
                      newPlanId: string, raw: RawParams, listed: seq<string>, found: Found)
    requires Find(cat, s, oldPlanId, id, listed) == Ok(found)
    ensures UpdateInstance(cat, pc, s, id, serviceId, oldPlanId, newPlanId, raw, listed).reply.Ok?
            <==> && DecidePlanChange(cat, pc, found, serviceId, newPlanId).Ok?
                 && UpdateParams(s, found.instance.labels.serviceName, raw).Ok?
                 && var plan := DecidePlanChange(cat, pc, found, serviceId, newPlanId).value;
                    var params := UpdateParams(s, found.instance.labels.serviceName, raw).value;
                    PlanGvk(plan).Ok?
                    && Store.Update(s, Key(PlanGvk(plan).value, found.instance.key.name),
                                    Retarget(found.instance.composite, plan, params)).Ok?
  {
  }

  lemma PlanChangeIff(cat: Catalog, pc: Checker, found: Found, serviceId: string, newPlanId: string)
    ensures DecidePlanChange(cat, pc, found, serviceId, newPlanId).Ok?
            <==> && found.instance.labels.serviceId == serviceId && GetPlan(cat, newPlanId).Ok?
                 && AllowUpdate(pc, found.plan.labels, GetPlan(cat, newPlanId).value.labels)
    ensures DecidePlanChange(cat, pc, found, serviceId, newPlanId).Ok? ==>
              DecidePlanChange(cat, pc, found, serviceId, newPlanId) == GetPlan(cat, newPlanId)
  {
  }

  /** An Update of a stored instance through its plan succeeds exactly when it names the instance's service id
      and a plan of the same kind that the rules accept from the stored one, and the service and the schema
      accept the parameters. In particular, where the schema is enforced, no database can change its plan
      without sending parameters. */
  lemma UpdateSucceedsIff(cat: Catalog, pc: Checker, s: State, key: Key, serviceId: string, newPlanId: string,
                          raw: RawParams, listed: seq<string>, service: Service)
    requires WellFormed(cat) && InstancesOk(cat, s) && VersionsOk(s)
    requires key in s.composites && key.gvk == ServiceGvk(service)
    ensures StoredPlan(cat, s.composites[key]).Ok?
    ensures var stored := StoredPlan(cat, s.composites[key]).value;
            UpdateInstance(cat, pc, s, key.name, serviceId, stored.name, newPlanId, raw, listed).reply.Ok?
            <==> && serviceId == stored.labels.serviceId && GetPlan(cat, newPlanId).Ok?
                 && PlanGvk(GetPlan(cat, newPlanId).value) == Ok(key.gvk)
                 && AllowUpdate(pc, stored.labels, GetPlan(cat, newPlanId).value.labels)
                 && UpdateAccepts(s, service, raw)
  {
    var c := s.composites[key];
    StoredInstanceIsFound(cat, s, key);
    InstanceParses(cat, key, c);
    KindMatchesService(cat, key, c);
    var was := StoredPlan(cat, c).value;
    var labels := ParseLabels(c.labels).value;
    ServiceGvkInjective(ServiceOf(labels.serviceName).value, service);
    var found := Found(was, Instance(key, c, labels));
    UpdateOfFound(cat, pc, s, key.name, serviceId, was.name, newPlanId, raw, listed, found);
    PlanChangeIff(cat, pc, found, serviceId, newPlanId);
    UpdateParamsIff(s, labels.serviceName, service, raw);
    if GetPlan(cat, newPlanId).Ok? && UpdateParams(s, labels.serviceName, raw).Ok? {
      var plan, params := GetPlan(cat, newPlanId).value, UpdateParams(s, labels.serviceName, raw).value;
      assert PlanBuildsService(plan);
      WriteBackIff(s, key, PlanGvk(plan).value, plan, params);
      AdmittedIff(s, service, key.name, params);
    }
  }

  // ---------------------------------------------------------------- Bind

  /** The secret a composite refers to is stored and describes an endpoint. */
  predicate HasEndpoint(s: State, c: Composite)
  {
    && c.connection.Some? && c.connection.value in s.secrets
    && var data := s.secrets[c.connection.value].data; EndpointKey in data && IsInteger(DataText(data, PortKey))
  }

  /** The database names a stored cluster as its parent parameter, the cluster has an endpoint, the labelled
      cluster is stored too, and nothing is stored under the name of the binding's password. */
  predicate BindAdmits(s: State, instance: Instance, bindingId: string)
  {
    && bindingId != "" && BindingPassword(bindingId) !in s.secrets
    && ParentRef(instance.composite.params).Ok?
    && (var key := Key(SynTools(MariaDBKind), ParentRef(instance.composite.params).value);
        key in s.composites && HasEndpoint(s, s.composites[key]))
    && Key(SynTools(MariaDBKind), instance.labels.parentId) in s.composites
  }

  lemma CreateBindingIff(s: State, bindingId: string, instanceId: string, parent: string, password: Result<string>)
    ensures CreateBinding(s, bindingId, instanceId, parent, password).reply.Ok?
            <==> password.Ok? && bindingId != "" && BindingPassword(bindingId) !in s.secrets
  {
  }

  lemma BindCredentialsIff(s: State, instance: Instance, cluster: Composite, bindingId: string, password: string)
    ensures BindCredentials(s, instance, cluster, bindingId, password).Ok?
            <==> HasEndpoint(s, cluster) && Key(SynTools(MariaDBKind), instance.labels.parentId) in s.composites
  {
  }

  /** Creating a binding adds no endpoint and no cluster. */
  lemma CreationKeepsEndpoints(s: State, bindingId: string, instanceId: string, parent: string,
                               password: Result<string>, c: Composite, id: string)
    requires CreateBinding(s, bindingId, instanceId, parent, password).reply.Ok?
    ensures var s' := CreateBinding(s, bindingId, instanceId, parent, password).state;
            && (HasEndpoint(s', c) <==> HasEndpoint(s, c))
            && (Key(SynTools(MariaDBKind), id) in s'.composites <==> Key(SynTools(MariaDBKind), id) in s.composites)
  {
  }

  /** A database Bind returns credentials exactly when there is a password to hand out and the store admits it. */
  lemma DatabaseBindSucceedsIff(s: State, instance: Instance, bindingId: string, password: Result<string>)
    ensures BindDatabase(s, instance, bindingId, password).reply.Ok?
            <==> password.Ok? && BindAdmits(s, instance, bindingId)
  {
    if ParentRef(instance.composite.params).Ok? {
      var parent := ParentRef(instance.composite.params).value;
      var key := Key(SynTools(MariaDBKind), parent);
      var id := instance.key.name;
      CreateBindingIff(s, bindingId, id, parent, password);
      if key in s.composites && CreateBinding(s, bindingId, id, parent, password).reply.Ok? {
        var s' := CreateBinding(s, bindingId, id, parent, password).state;
        CreationKeepsEndpoints(s, bindingId, id, parent, password, s.composites[key], instance.labels.parentId);
        BindCredentialsIff(s', instance, s.composites[key], bindingId, password.value);
      }
    }
  }

  lemma RedisBindIff(s: State, instance: Instance)
    ensures BindRedis(s, instance).Ok?
            <==> && HasEndpoint(s, instance.composite)
                 && IsInteger(DataText(s.secrets[instance.composite.connection.value].data, SentinelPortKey))
  {
  }

  /** A Bind of a stored instance through its plan returns credentials exactly when the instance is ready and is
      a Redis instance with both ports, or a database the store admits a new binding of. */
  lemma BindSucceedsIff(cat: Catalog, s: State, key: Key, bindingId: string, listed: seq<string>,
                        password: Result<string>, service: Service)
    requires WellFormed(cat) && InstancesOk(cat, s)
    requires key in s.composites && key.gvk == ServiceGvk(service)
    ensures ParseLabels(s.composites[key].labels).Ok?
    ensures var c := s.composites[key];
            var instance := Instance(key, c, ParseLabels(c.labels).value);
            Bind(cat, s, key.name, bindingId, c.compositionRef, listed, password).reply.Ok?
            <==> c.ready && match service
                            case MariaDB => false
                            case Redis =>
                              HasEndpoint(s, c)
                              && IsInteger(DataText(s.secrets[c.connection.value].data, SentinelPortKey))
                            case MariaDBDatabase => password.Ok? && BindAdmits(s, instance, bindingId)
  {
    var c := s.composites[key];
    StoredInstanceIsFound(cat, s, key);
    KindMatchesService(cat, key, c);
    var instance := Instance(key, c, ParseLabels(c.labels).value);
    ServiceGvkInjective(ServiceOf(instance.labels.serviceName).value, service);
    RedisBindIff(s, instance);
    DatabaseBindSucceedsIff(s, instance, bindingId, password);
  }

  // ---------------------------------------------------------------- Unbind

  /** The binding's composite has a User, both the User and the password secret are stored. */
  predicate UnbindAdmits(s: State, bindingId: string)
  {
    && UserKey(bindingId) in s.composites && BindingPassword(bindingId) in s.secrets
    && LastUser(s.composites[UserKey(bindingId)].refs).Some?
    && LastUser(s.composites[UserKey(bindingId)].refs).value in s.users
  }

  lemma DatabaseUnbindSucceedsIff(s: State, bindingId: string)
    ensures UnbindDatabase(s, bindingId).reply.Ok? <==> UnbindAdmits(s, bindingId)
    ensures UnbindDatabase(s, bindingId).reply.Err? ==> UnbindDatabase(s, bindingId).state == s
  {
  }

  /** An Unbind from a stored instance through its plan succeeds exactly when the instance is ready and is a
      Redis instance, or a database and the store admits it. A failure changes nothing. */
  lemma UnbindSucceedsIff(cat: Catalog, s: State, key: Key, bindingId: string, listed: seq<string>, service: Service)
    requires WellFormed(cat) && InstancesOk(cat, s)
    requires key in s.composites && key.gvk == ServiceGvk(service)
    ensures var c := s.composites[key];
            var o := Unbind(cat, s, key.name, bindingId, c.compositionRef, listed);
            && (o.reply.Ok? <==> c.ready && (service == Redis
                                             || (service == MariaDBDatabase && UnbindAdmits(s, bindingId))))
            && (o.reply.Err? ==> o.state == s)
  {
    var c := s.composites[key];
    StoredInstanceIsFound(cat, s, key);
    KindMatchesService(cat, key, c);
    ServiceGvkInjective(ServiceOf(ParseLabels(c.labels).value.serviceName).value, service);
    DatabaseUnbindSucceedsIff(s, bindingId);
  }
}
