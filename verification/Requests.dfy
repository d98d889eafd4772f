/** The broker's requests as functions of the store: each one reads, decides, and then writes. */
module Requests {
  import opened Types
  import opened Metadata
  import opened PlanPolicy
  import opened Store
  import opened Catalog

  /** The parameters of a request: no field, a field without text, text that is not a JSON object, or an object. */
  datatype RawParams = Absent | Empty | Malformed | Decoded(params: Params)

  /** An instance as fetched, with its labels parsed. */
  datatype Instance = Instance(key: Key, composite: Composite, labels: Labels)

  datatype Found = Found(plan: Plan, instance: Instance)

  // ---------------------------------------------------------------- Finding instances

  /** Fetches an instance by id and plan: the plan gives the kind, and the plan name has to match. */
  function Lookup(s: State, id: string, plan: Plan): Result<Option<Instance>>
  {
    var gvk :- PlanGvk(plan);
    match Get(s, Key(gvk, id))
    case Err(_) => Ok(None)
    case Ok(c) =>
      var labels :- ParseLabels(c.labels);
      if labels.planName != plan.labels.planName then Err(PlanMismatch)
      else Ok(Some(Instance(Key(gvk, id), c, labels)))
  }

  /** Tries one plan after another until one has the instance. */
  function FindIn(s: State, id: string, plans: seq<Plan>): Result<Found>
  {
    if plans == [] then Err(PlanMismatch)
    else
      match Lookup(s, id, plans[0])
      case Ok(Some(instance)) => Ok(Found(plans[0], instance))
      case Ok(None) => FindIn(s, id, plans[1..])
      case Err(e) => if e == PlanMismatch then FindIn(s, id, plans[1..]) else Err(e)
  }

  /** The lookup when the plan is unknown; `listed` is what the API server listed. */
  function FindWithoutPlan(cat: Catalog, s: State, id: string, listed: seq<string>): Result<Found>
  {
    var plans :- Plans(cat, listed);
    FindIn(s, id, plans)
  }

  function FindWithPlan(cat: Catalog, s: State, planId: string, id: string): Result<Found>
  {
    var plan :- GetPlan(cat, planId);
    var instance :- Lookup(s, id, plan);
    match instance
    case None => Err(InstanceDoesNotExist)
    case Some(i) => Ok(Found(plan, i))
  }

  function Find(cat: Catalog, s: State, planId: string, id: string, listed: seq<string>): Result<Found>
  {
    if planId == "" then FindWithoutPlan(cat, s, id, listed) else FindWithPlan(cat, s, planId, id)
  }

  // ---------------------------------------------------------------- Parameters

  /** The front end sends a list of ticked boxes where a boolean is meant. */
  function NormaliseTls(params: Params): Params
  {
    if Tls in params && params[Tls].Array? then params[Tls := Bool(|params[Tls].items| >= 1)] else params
  }

  function ParentRef(params: Params): Result<string>
  {
    if ParentReference !in params then Err(ParentReferenceMissing)
    else if params[ParentReference].Str? then Ok(params[ParentReference].s)
    else Err(Panic)
  }

  function Decode(raw: RawParams): Result<Params>
  {
    if raw.Decoded? then Ok(raw.params) else Err(MalformedParameters)
  }

  /** The database service looks its parent up in the store; the other services do not read it. */
  function ValidateParams(s: State, serviceName: string, raw: RawParams): Result<Params>
  {
    match ServiceOf(serviceName)
    case None => Err(InvalidService(serviceName))
    case Some(MariaDB) => Ok(map[])
    case Some(Redis) =>
      var params :- Decode(raw);
      Ok(NormaliseTls(params))
    case Some(MariaDBDatabase) =>
      var params :- Decode(raw);
      var parent :- ParentRef(params);
      if Get(s, Key(SynTools(MariaDBKind), parent)).Ok? then Ok(params) else Err(ParentInvalid)
  }

  // ---------------------------------------------------------------- Provision

  function PlanLabel(plan: Plan, key: LabelKey): string
  {
    Text(plan.composition.labels, key)
  }

  /** The labels an instance copies from its composition. */
  predicate IsCopied(key: LabelKey)
  {
    || key.ServiceIdLabel? || key.ServiceNameLabel? || key.PlanNameLabel? || key.ClusterLabel? || key.SlaLabel?
    || key.OwnerApiVersionLabel? || key.OwnerGroupLabel? || key.OwnerKindLabel?
  }

  function CopiedLabels(): (keys: set<LabelKey>)
    ensures forall key :: key in keys <==> IsCopied(key)
  {
    {ServiceIdLabel, ServiceNameLabel, PlanNameLabel, ClusterLabel, SlaLabel, OwnerApiVersionLabel, OwnerGroupLabel,
     OwnerKindLabel}
  }

  function CopyLabels(plan: Plan, keys: set<LabelKey>): LabelMap
  {
    map key | key in keys :: PlanLabel(plan, key)
  }

  function PlanLabels(plan: Plan, id: string, principal: string): (labels: LabelMap)
    ensures forall key :: key in labels <==> IsCopied(key) || key.InstanceIdLabel? || key.PrincipalLabel?
    ensures forall key :: IsCopied(key) ==> labels[key] == PlanLabel(plan, key)
    ensures labels[InstanceIdLabel] == id && labels[PrincipalLabel] == principal
  {
    CopyLabels(plan, CopiedLabels())[InstanceIdLabel := id][PrincipalLabel := principal]
  }

  function PrepareLabels(id: string, plan: Plan, params: Params, principal: Result<string>): Result<LabelMap>
  {
    var who :- principal;
    var labels := PlanLabels(plan, id, who);
    if ParentReference !in params || params[ParentReference].Null? then Ok(labels)
    else if params[ParentReference].Str? then Ok(labels[ParentIdLabel := params[ParentReference].s])
    else Err(Panic)
  }

  function NewComposite(plan: Plan, labels: LabelMap, params: Params): Composite
  {
    Composite(labels, params, plan.name, false, false, [], None, 0)
  }

  /** A write to one object. */
  datatype Write = Write(key: Key, composite: Composite)

  datatype ProvisionReply = AlreadyProvisioned | Provisioned

  function PrepareCreate(id: string, plan: Plan, params: Params, principal: Result<string>): Result<Write>
  {
    var labels :- PrepareLabels(id, plan, params, principal);
    var gvk :- PlanGvk(plan);
    Ok(Write(Key(gvk, id), NewComposite(plan, labels, params)))
  }

  /** The parameters a Provision goes on with. */
  function ProvisionParams(s: State, serviceName: string, raw: RawParams): Result<Params>
  {
    if raw.Absent? then Ok(map[]) else ValidateParams(s, serviceName, raw)
  }

  /** What a Provision is going to write, or `None` if the instance is already there. */
  function DecideProvision(cat: Catalog, s: State, id: string, planId: string, raw: RawParams,
                           principal: Result<string>)
    : Result<Option<Write>>
  {
    var plan :- GetPlan(cat, planId);
    var existing :- Lookup(s, id, plan);
    if existing.Some? then
      if raw.Absent? then Ok(None) else Err(InstanceAlreadyExists)
    else
      var params :- ProvisionParams(s, plan.labels.serviceName, raw);
      var write :- PrepareCreate(id, plan, params, principal);
      Ok(Some(write))
  }

  function Provision(cat: Catalog, s: State, id: string, planId: string, raw: RawParams, principal: Result<string>)
    : Outcome<ProvisionReply>
  {
    match DecideProvision(cat, s, id, planId, raw, principal)
    case Err(e) => Outcome(s, Err(e))
    case Ok(None) => Outcome(s, Ok(AlreadyProvisioned))
    case Ok(Some(write)) =>
      match Create(s, write.key, write.composite)
      case Err(e) => Outcome(s, Err(e))
      case Ok(s') => Outcome(s', Ok(Provisioned))
  }

  // ---------------------------------------------------------------- Update

  /** The object as Update rewrites it: composition, the plan and SLA labels, and all parameters. */
  function Retarget(c: Composite, plan: Plan, params: Params): Composite
  {
    c.(
      compositionRef := plan.name,
      labels := c.labels[PlanNameLabel := PlanLabel(plan, PlanNameLabel)][SlaLabel := PlanLabel(plan, SlaLabel)],
      params := params
    )
  }

  /** The part of Update that depends on the catalog and the fetched instance alone. */
  function DecidePlanChange(cat: Catalog, pc: Checker, found: Found, serviceId: string, newPlanId: string): Result<Plan>
  {
    if found.instance.labels.serviceId != serviceId then Err(ServiceUpdateNotPermitted)
    else
      var plan :- GetPlan(cat, newPlanId);
      if !AllowUpdate(pc, found.plan.labels, plan.labels) then Err(PlanChangeNotPermitted) else Ok(plan)
  }

  function UpdateParams(s: State, serviceName: string, raw: RawParams): Result<Params>
  {
    if raw.Absent? || raw.Empty? then Ok(map[]) else ValidateParams(s, serviceName, raw)
  }

  function PrepareUpdate(instance: Instance, plan: Plan, params: Params): Result<Write>
  {
    var gvk :- PlanGvk(plan);
    Ok(Write(Key(gvk, instance.key.name), Retarget(instance.composite, plan, params)))
  }

  function DecideUpdate(cat: Catalog, pc: Checker, s: State, id: string, serviceId: string, oldPlanId: string,
                        newPlanId: string, raw: RawParams, listed: seq<string>): Result<Write>
  {
    var found :- Find(cat, s, oldPlanId, id, listed);
    var plan :- DecidePlanChange(cat, pc, found, serviceId, newPlanId);
    var params :- UpdateParams(s, found.instance.labels.serviceName, raw);
    PrepareUpdate(found.instance, plan, params)
  }

  function UpdateInstance(cat: Catalog, pc: Checker, s: State, id: string, serviceId: string, oldPlanId: string,
                          newPlanId: string, raw: RawParams, listed: seq<string>): Outcome<()>
  {
    match DecideUpdate(cat, pc, s, id, serviceId, oldPlanId, newPlanId, raw, listed)
    case Err(e) => Outcome(s, Err(e))
    case Ok(write) =>
      match Store.Update(s, write.key, write.composite)
      case Err(e) => Outcome(s, Err(e))
      case Ok(s') => Outcome(s', Ok(()))
  }

  // ---------------------------------------------------------------- Deprovision

  /** Only a MariaDB cluster can be in use: by the databases labelled with it. */
  function Deprovisionable(s: State, instance: Instance): Result<()>
  {
    match ServiceOf(instance.labels.serviceName)
    case None => Err(InvalidService(instance.labels.serviceName))
    case Some(MariaDB) =>
      if Children(s, instance.key.name) != {} then Err(InUse(Children(s, instance.key.name))) else Ok(())
    case Some(_) => Ok(())
  }

  function DecideDeprovision(cat: Catalog, s: State, id: string, planId: string, listed: seq<string>): Result<Key>
  {
    var found :- Find(cat, s, planId, id, listed);
    var _ :- Deprovisionable(s, found.instance);
    var gvk :- PlanGvk(found.plan);
    Ok(Key(gvk, found.instance.key.name))
  }

  function Deprovision(cat: Catalog, s: State, id: string, planId: string, listed: seq<string>): Outcome<()>
  {
    match DecideDeprovision(cat, s, id, planId, listed)
    case Err(e) => Outcome(s, Err(e))
    case Ok(key) =>
      match Delete(s, key)
      case Err(e) => Outcome(s, Err(e))
      case Ok(s') => Outcome(s', Ok(()))
  }

  // ---------------------------------------------------------------- GetInstance

  datatype InstanceInfo = InstanceInfo(planId: string, serviceId: string, params: Params)

  function GetInstance(cat: Catalog, s: State, id: string, planId: string, listed: seq<string>): Result<InstanceInfo>
  {
    var found :- Find(cat, s, planId, id, listed);
    Ok(InstanceInfo(found.plan.name, found.plan.labels.serviceId, found.instance.composite.params))
  }

  // ---------------------------------------------------------------- Bind

  datatype Credentials = Credentials(host: string, port: string, username: string, password: string, database: string,
                                     parent: string, cluster: string)

  datatype Endpoint = Endpoint(host: string, port: string)

  predicate IsDecimal(s: string)
  {
    s != "" && forall i :: 0 <= i < |s| ==> '0' <= s[i] <= '9'
  }

  /** `strconv.Atoi` accepts an optional sign and at least one digit. */
  predicate IsInteger(s: string)
  {
    IsDecimal(if s != "" && s[0] in "+-" then s[1..] else s)
  }

  function DataText(data: map<SecretKey, string>, key: SecretKey): string
  {
    if key in data then data[key] else ""
  }

  function MapEndpoint(data: map<SecretKey, string>): Result<Endpoint>
  {
    if EndpointKey !in data then Err(BindingNotFound)
    else if !IsInteger(DataText(data, PortKey)) then Err(InvalidPort)
    else Ok(Endpoint(data[EndpointKey], DataText(data, PortKey)))
  }

  function ConnectionDetails(s: State, c: Composite): Result<Secret>
  {
    if c.connection.None? then Err(NoSecretReference)
    else
      var secret :- GetSecret(s, c.connection.value);
      if secret.data == map[] then Err(NoSecretData) else Ok(secret)
  }

  function UserKey(bindingId: string): Key
  {
    Key(SynTools(UserKind), bindingId)
  }

  function UserComposite(instanceId: string, parent: string): Composite
  {
    Composite(
      map[InstanceIdLabel := instanceId, ParentIdLabel := parent, OwnerApiVersionLabel := "v1alpha1",
          OwnerGroupLabel := "syn.tools", OwnerKindLabel := "CompositeMariaDBUserInstance"],
      map[ParentReference := Str(parent)], "mariadb-user", false, false, [], None, 0)
  }

  /** First the password secret, then the user composite; an existing composite is accepted. */
  function CreateBinding(s: State, bindingId: string, instanceId: string, parent: string, password: Result<string>)
    : Outcome<string>
  {
    if password.Err? then Outcome(s, Err(password.error))
    else
      match CreateSecret(s, BindingPassword(bindingId), map[PasswordKey := password.value])
      case Err(e) => Outcome(s, Err(e))
      case Ok(s1) =>
        match Create(s1, UserKey(bindingId), UserComposite(instanceId, parent))
        case Ok(s2) => Outcome(s2, password)
        case Err(e) => Outcome(s1, if e == AlreadyExists then password else Err(e))
  }

  /** What Bind still reads after the binding has been created. */
  function BindCredentials(s: State, instance: Instance, cluster: Composite, bindingId: string, password: string)
    : Result<Credentials>
  {
    match ConnectionDetails(s, cluster)
    case Err(e) => Err(if e == NotFound then InstanceNotReady else e)
    case Ok(secret) =>
      var endpoint :- MapEndpoint(secret.data);
      var parent :- Get(s, Key(SynTools(MariaDBKind), instance.labels.parentId));
      Ok(Credentials(endpoint.host, endpoint.port, bindingId, password, instance.key.name, instance.labels.parentId,
                     Text(parent.labels, ClusterLabel)))
  }

  function BindDatabase(s: State, instance: Instance, bindingId: string, password: Result<string>): Outcome<Credentials>
  {
    match ParentRef(instance.composite.params)
    case Err(e) => Outcome(s, Err(e))
    case Ok(parent) =>
      match Get(s, Key(SynTools(MariaDBKind), parent))
      case Err(e) => Outcome(s, Err(e))
      case Ok(cluster) =>
        var created := CreateBinding(s, bindingId, instance.key.name, parent, password);
        match created.reply
        case Err(e) => Outcome(created.state, Err(e))
        case Ok(pw) => Outcome(created.state, BindCredentials(created.state, instance, cluster, bindingId, pw))
  }

  /** Redis bindings hand out the instance's own connection secret. */
  function BindRedis(s: State, instance: Instance): Result<Credentials>
  {
    var secret :- ConnectionDetails(s, instance.composite);
    var endpoint :- MapEndpoint(secret.data);
    if !IsInteger(DataText(secret.data, SentinelPortKey)) then Err(InvalidPort)
    else Ok(Credentials(endpoint.host, endpoint.port, "", DataText(secret.data, PasswordKey), instance.key.name, "",
                        Text(instance.composite.labels, ClusterLabel)))
  }

  function FindReady(cat: Catalog, s: State, id: string, planId: string, listed: seq<string>): Result<Instance>
  {
    var found :- Find(cat, s, planId, id, listed);
    if !found.instance.composite.ready then Err(ConcurrentInstanceAccess) else Ok(found.instance)
  }

  function Bind(cat: Catalog, s: State, id: string, bindingId: string, planId: string, listed: seq<string>,
                password: Result<string>): Outcome<Credentials>
  {
    match FindReady(cat, s, id, planId, listed)
    case Err(e) => Outcome(s, Err(e))
    case Ok(instance) =>
      match ServiceOf(instance.labels.serviceName)
      case None => Outcome(s, Err(InvalidService(instance.labels.serviceName)))
      case Some(Redis) => Outcome(s, BindRedis(s, instance))
      case Some(MariaDB) => Outcome(s, Err(BindingNotSupported))
      case Some(MariaDBDatabase) => BindDatabase(s, instance, bindingId, password)
  }

  // ---------------------------------------------------------------- Unbind

  /** The last resource reference of kind User wins. */
  function LastUser(refs: seq<ResourceRef>): Option<string>
  {
    if refs == [] then None
    else if refs[|refs| - 1].kind == UserRef then Some(refs[|refs| - 1].name)
    else LastUser(refs[..|refs| - 1])
  }

  /** Makes the User the owner of the password secret, so that the two are removed together. */
  function MarkCredentials(s: State, bindingId: string): Result<State>
  {
    var c :- Get(s, UserKey(bindingId));
    match LastUser(c.refs)
    case None => Err(NoUserInComposite)
    case Some(user) =>
      var secret :- GetSecret(s, BindingPassword(bindingId));
      if user !in s.users then Err(NotFound)
      else UpdateSecret(s, BindingPassword(bindingId), secret.(owner := Some(user)))
  }

  function UnbindDatabase(s: State, bindingId: string): Outcome<()>
  {
    match MarkCredentials(s, bindingId)
    case Err(e) => Outcome(s, Err(e))
    case Ok(s1) =>
      match DeleteForeground(s1, UserKey(bindingId))
      case Err(e) => Outcome(s1, Err(e))
      case Ok(s2) => Outcome(s2, Ok(()))
  }

  function Unbind(cat: Catalog, s: State, id: string, bindingId: string, planId: string,
                  listed: seq<string>): Outcome<()>
  {
    match FindReady(cat, s, id, planId, listed)
    case Err(e) => Outcome(s, Err(e))
    case Ok(instance) =>
      match ServiceOf(instance.labels.serviceName)
      case None => Outcome(s, Err(InvalidService(instance.labels.serviceName)))
      case Some(Redis) => Outcome(s, Ok(()))
      case Some(MariaDB) => Outcome(s, Err(NotImplemented))
      case Some(MariaDBDatabase) =>
        var o := UnbindDatabase(s, bindingId);
        Outcome(o.state, if o.reply == Err(NotFound) then Err(BindingDoesNotExist) else o.reply)
  }

  // ---------------------------------------------------------------- The controller and the garbage collector

  /** The controller may at any time rewrite what it maintains on a composite; labels, parameters and the
      composition stay. */
  function ControllerWrite(s: State, key: Key, ready: bool, refs: seq<ResourceRef>,
                           connection: Option<SecretName>): State
  {
    if key !in s.composites then s
    else Put(s, key, s.composites[key].(ready := ready, refs := refs, connection := connection))
  }

  /** The controller creates the User of a user composite that has none and refers to it. */
  function ComposeUser(s: State, bindingId: string, refs: seq<ResourceRef>): State
  {
    var key := UserKey(bindingId);
    if key in s.composites && !s.composites[key].deleting && LastUser(s.composites[key].refs).None?
    && LastUser(refs).Some?
    then Put(s, key, s.composites[key].(refs := refs)).(users := s.users + {LastUser(refs).value})
    else s
  }

  /** Foreground deletion removes the User of a composite marked for deletion. */
  function RemoveUser(s: State, bindingId: string): State
  {
    var key := UserKey(bindingId);
    if key in s.composites && s.composites[key].deleting && LastUser(s.composites[key].refs).Some?
    then s.(users := s.users - {LastUser(s.composites[key].refs).value})
    else s
  }

  predicate Collectable(s: State, name: SecretName)
  {
    name in s.secrets && s.secrets[name].owner.Some? && s.secrets[name].owner.value !in s.users
  }

  /** A secret whose owner is gone is collected. */
  function CollectSecret(s: State, name: SecretName): State
  {
    if Collectable(s, name) then s.(secrets := s.secrets - {name}) else s
  }

  predicate Finishable(s: State, bindingId: string)
  {
    var key := UserKey(bindingId);
    && key in s.composites && s.composites[key].deleting
    && (LastUser(s.composites[key].refs).Some? ==> LastUser(s.composites[key].refs).value !in s.users)
  }

  /** A composite marked for deletion goes once its User is gone. */
  function FinishDelete(s: State, bindingId: string): State
  {
    if Finishable(s, bindingId) then s.(composites := s.composites - {UserKey(bindingId)}, clock := s.clock + 1) else s
  }
}
