/** What each request answers, in every case: which error comes first, and what a success hands out. */
module Answers {
  import opened Types
  import opened Metadata
  import opened PlanPolicy
  import opened Store
  import opened Catalog
  import opened Requests
  import opened Instances
  import Admission

  // ---------------------------------------------------------------- Parameters

  /** The first thing a service finds wrong with the parameters of a request. */
  function Refusal(s: State, service: Service, raw: RawParams): Option<Error>
  {
    match service
    case MariaDB => None
    case Redis => if raw.Decoded? then None else Some(MalformedParameters)
    case MariaDBDatabase =>
      if !raw.Decoded? then Some(MalformedParameters)
      else if ParentReference !in raw.params then Some(ParentReferenceMissing)
      else if !raw.params[ParentReference].Str? then Some(Panic)
      else if Key(SynTools(MariaDBKind), raw.params[ParentReference].s) !in s.composites then Some(ParentInvalid)
      else None
  }

  lemma RefusalMeaning(s: State, name: string, service: Service, raw: RawParams)
    requires ServiceOf(name) == Some(service)
    ensures Refusal(s, service, raw).None? <==> Admission.Accepts(s, service, raw)
    ensures Refusal(s, service, raw).Some? ==> ValidateParams(s, name, raw) == Err(Refusal(s, service, raw).value)
    ensures Refusal(s, service, raw).None? ==> ValidateParams(s, name, raw).Ok?
  {
  }

  // ---------------------------------------------------------------- Provision

  /** An instance that is there is reported as such if the plan fits and the request has no parameters. */
  function ProvisionAnswer(s: State, service: Service, planName: string, id: string, raw: RawParams,
                           principal: Result<string>): Result<ProvisionReply>
  {
    var key := Key(ServiceGvk(service), id);
    if key in s.composites then
      if Text(s.composites[key].labels, PlanNameLabel) != planName then Err(PlanMismatch)
      else if raw.Absent? then Ok(AlreadyProvisioned)
      else Err(InstanceAlreadyExists)
    else if !raw.Absent? && Refusal(s, service, raw).Some? then Err(Refusal(s, service, raw).value)
    else if principal.Err? then Err(principal.error)
    else if service == Redis && raw.Decoded? && !Admission.ParentIsTextual(raw.params) then Err(Panic)
    else if id == "" || (raw.Absent? && !Admission.MayBeBare(s, service)) then Err(SchemaViolation)
    else Ok(Provisioned)
  }

  lemma ProvisionAnswersStored(cat: Catalog, s: State, id: string, plan: Plan, raw: RawParams,
                               principal: Result<string>, service: Service)
    requires WellFormed(cat) && InstancesOk(cat, s) && GetPlan(cat, plan.name) == Ok(plan)
    requires ServiceOf(plan.labels.serviceName) == Some(service) && Key(ServiceGvk(service), id) in s.composites
    ensures Provision(cat, s, id, plan.name, raw, principal)
         == Outcome(s, ProvisionAnswer(s, service, plan.labels.planName, id, raw, principal))
  {
    assert PlanBuildsService(plan);
    var key := Key(ServiceGvk(service), id);
    InstanceParses(cat, key, s.composites[key]);
  }

  /** Creating what was prepared, said in terms of the parameters. */
  lemma PreparedAnswer(s: State, id: string, plan: Plan, params: Params, principal: Result<string>, service: Service)
    requires PlanGvk(plan) == Ok(ServiceGvk(service)) && Key(ServiceGvk(service), id) !in s.composites
    ensures var w := PrepareCreate(id, plan, params, principal);
            if principal.Err? then w == Err(principal.error)
            else if !Admission.ParentIsTextual(params) then w == Err(Panic)
            else
              w.Ok?
              && Create(s, w.value.key, w.value.composite)
                 == if id != "" && (Admission.MayBeBare(s, service)
                                    || (ParentReference in params && params[ParentReference].Str?))
                    then Ok(Put(s, w.value.key, w.value.composite)) else Err(SchemaViolation)
  {
    if PrepareCreate(id, plan, params, principal).Ok? {
      Admission.PreparedIff(id, plan, params, principal, ServiceGvk(service));
      Admission.AdmittedIff(s, service, id, params);
    }
  }

  lemma ProvisionParamsAnswer(s: State, name: string, service: Service, raw: RawParams)
    requires ServiceOf(name) == Some(service)
    ensures var r := ProvisionParams(s, name, raw);
            if !raw.Absent? && Refusal(s, service, raw).Some? then r == Err(Refusal(s, service, raw).value)
            else
              && r.Ok?
              && (Admission.ParentIsTextual(r.value)
                  <==> !(service == Redis && raw.Decoded? && !Admission.ParentIsTextual(raw.params)))
              && (Admission.MayBeBare(s, service) || (ParentReference in r.value && r.value[ParentReference].Str?)
                  <==> !(raw.Absent? && !Admission.MayBeBare(s, service)))
  {
    RefusalMeaning(s, name, service, raw);
    Admission.AcceptedParams(s, name, service, raw);
  }

  lemma ProvisionAnswersMissing(cat: Catalog, s: State, id: string, plan: Plan, raw: RawParams,
                                principal: Result<string>, service: Service)
    requires WellFormed(cat) && GetPlan(cat, plan.name) == Ok(plan)
    requires ServiceOf(plan.labels.serviceName) == Some(service) && Key(ServiceGvk(service), id) !in s.composites
    ensures Provision(cat, s, id, plan.name, raw, principal).reply
         == ProvisionAnswer(s, service, plan.labels.planName, id, raw, principal)
  {
    assert PlanBuildsService(plan);
    ProvisionParamsAnswer(s, plan.labels.serviceName, service, raw);
    var params := ProvisionParams(s, plan.labels.serviceName, raw);
    if params.Ok? {
      PreparedAnswer(s, id, plan, params.value, principal, service);
    }
  }

  /** What a Provision answers, for every store of well-formed instances. */
  lemma ProvisionAnswers(cat: Catalog, s: State, id: string, plan: Plan, raw: RawParams, principal: Result<string>,
                         service: Service)
    requires WellFormed(cat) && InstancesOk(cat, s) && GetPlan(cat, plan.name) == Ok(plan)
    requires ServiceOf(plan.labels.serviceName) == Some(service)
    ensures Provision(cat, s, id, plan.name, raw, principal).reply
         == ProvisionAnswer(s, service, plan.labels.planName, id, raw, principal)
  {
    if Key(ServiceGvk(service), id) in s.composites {
      ProvisionAnswersStored(cat, s, id, plan, raw, principal, service);
    } else {
      ProvisionAnswersMissing(cat, s, id, plan, raw, principal, service);
    }
  }

  /** Provisioning an instance again through the plan it is on: without parameters it is there already, with
      parameters it is in the way. Nothing changes. */
  lemma ProvisionAgain(cat: Catalog, s: State, key: Key, raw: RawParams, principal: Result<string>)
    requires WellFormed(cat) && InstancesOk(cat, s) && key in s.composites && InstanceGvk(key.gvk)
    ensures Provision(cat, s, key.name, s.composites[key].compositionRef, raw, principal)
         == Outcome(s, if raw.Absent? then Ok(AlreadyProvisioned) else Err(InstanceAlreadyExists))
  {
    StoredInstanceIsFound(cat, s, key);
  }

  // ---------------------------------------------------------------- Update

  predicate Carries(raw: RawParams)
  {
    !raw.Absent? && !raw.Empty?
  }

  /** The answer to an Update of a stored instance through the plan it is on. */
  function UpdateAnswer(cat: Catalog, pc: Checker, s: State, key: Key, plan: Plan, serviceId: string,
                        newPlanId: string, raw: RawParams, service: Service): Result<()>
  {
    if serviceId != plan.labels.serviceId then Err(ServiceUpdateNotPermitted)
    else if newPlanId !in cat.compositions then Err(NotFound)
    else if GetPlan(cat, newPlanId).Err? then Err(GetPlan(cat, newPlanId).error)
    else if !AllowUpdate(pc, plan.labels, GetPlan(cat, newPlanId).value.labels) then Err(PlanChangeNotPermitted)
    else if Carries(raw) && Refusal(s, service, raw).Some? then Err(Refusal(s, service, raw).value)
    else
      var gvk :- PlanGvk(GetPlan(cat, newPlanId).value);
      if gvk != key.gvk then Err(if Key(gvk, key.name) in s.composites then Conflict else NotFound)
      else if !Carries(raw) && !Admission.MayBeBare(s, service) then Err(SchemaViolation)
      else Ok(())
  }

  /** What writing a fetched object back answers. */
  lemma WriteBackAnswer(s: State, key: Key, gvk: Gvk, plan: Plan, params: Params)
    requires VersionsOk(s) && key in s.composites
    ensures var r := Store.Update(s, Key(gvk, key.name), Retarget(s.composites[key], plan, params));
            if gvk != key.gvk then r == Err(if Key(gvk, key.name) in s.composites then Conflict else NotFound)
            else if !Admits(s, key, params) then r == Err(SchemaViolation)
            else r.Ok?
  {
  }

  lemma UpdateParamsAnswer(s: State, name: string, service: Service, raw: RawParams)
    requires ServiceOf(name) == Some(service)
    ensures var r := UpdateParams(s, name, raw);
            if Carries(raw) && Refusal(s, service, raw).Some? then r == Err(Refusal(s, service, raw).value)
            else r.Ok? && (Admission.MayBeBare(s, service)
                           || (ParentReference in r.value && r.value[ParentReference].Str?)
                           <==> Carries(raw) || Admission.MayBeBare(s, service))
  {
    RefusalMeaning(s, name, service, raw);
    Admission.AcceptedParams(s, name, service, raw);
  }

  /** Writing validated parameters and a new plan back, said in terms of the request. */
  lemma WrittenUpdateAnswers(s: State, instance: Instance, plan: Plan, raw: RawParams, params: Params,
                             service: Service, gvk: Gvk)
    requires VersionsOk(s) && ServiceOf(instance.labels.serviceName) == Some(service)
    requires instance.key in s.composites && s.composites[instance.key] == instance.composite
    requires instance.key.gvk == ServiceGvk(service) && PlanGvk(plan) == Ok(gvk)
    requires UpdateParams(s, instance.labels.serviceName, raw) == Ok(params)
    ensures var w := PrepareUpdate(instance, plan, params);
            && w.Ok?
            && var r := Store.Update(s, w.value.key, w.value.composite);
               if gvk != instance.key.gvk then
                 r == Err(if Key(gvk, instance.key.name) in s.composites then Conflict else NotFound)
               else if !Carries(raw) && !Admission.MayBeBare(s, service) then r == Err(SchemaViolation)
               else r.Ok?
  {
    UpdateParamsAnswer(s, instance.labels.serviceName, service, raw);
    WriteBackAnswer(s, instance.key, gvk, plan, params);
    Admission.AdmittedIff(s, service, instance.key.name, params);
  }

  lemma PlanChangeAnswer(cat: Catalog, pc: Checker, found: Found, serviceId: string, newPlanId: string)
    ensures DecidePlanChange(cat, pc, found, serviceId, newPlanId)
         == if serviceId != found.instance.labels.serviceId then Err(ServiceUpdateNotPermitted)
            else if newPlanId !in cat.compositions then Err(NotFound)
            else if GetPlan(cat, newPlanId).Err? then Err(GetPlan(cat, newPlanId).error)
            else if !AllowUpdate(pc, found.plan.labels, GetPlan(cat, newPlanId).value.labels)
            then Err(PlanChangeNotPermitted)
            else Ok(GetPlan(cat, newPlanId).value)
  {
  }

  /** What an Update answers once it has decided on the plan. */
  function WrittenAnswer(s: State, instance: Instance, plan: Plan, params: Result<Params>): Result<()>
  {
    match params
    case Err(e) => Err(e)
    case Ok(ps) =>
      match PrepareUpdate(instance, plan, ps)
      case Err(e) => Err(e)
      case Ok(w) => match Store.Update(s, w.key, w.composite) case Err(e) => Err(e) case Ok(_) => Ok(())
  }

  lemma WrittenAnswerMeaning(s: State, instance: Instance, plan: Plan, raw: RawParams, service: Service, gvk: Gvk)
    requires VersionsOk(s) && ServiceOf(instance.labels.serviceName) == Some(service)
    requires instance.key in s.composites && s.composites[instance.key] == instance.composite
    requires instance.key.gvk == ServiceGvk(service) && PlanGvk(plan) == Ok(gvk)
    ensures WrittenAnswer(s, instance, plan, UpdateParams(s, instance.labels.serviceName, raw))
         == if Carries(raw) && Refusal(s, service, raw).Some? then Err(Refusal(s, service, raw).value)
            else if gvk != instance.key.gvk then
              Err(if Key(gvk, instance.key.name) in s.composites then Conflict else NotFound)
            else if !Carries(raw) && !Admission.MayBeBare(s, service) then Err(SchemaViolation)
            else Ok(())
  {
    UpdateParamsAnswer(s, instance.labels.serviceName, service, raw);
    match UpdateParams(s, instance.labels.serviceName, raw)
    case Err(_) =>
    case Ok(params) => WrittenUpdateAnswers(s, instance, plan, raw, params, service, gvk);
  }

  /** What an Update answers once it has found its instance. */
  function FoundAnswer(cat: Catalog, pc: Checker, s: State, found: Found, serviceId: string, newPlanId: string,
                       raw: RawParams): Result<()>
  {
    match DecidePlanChange(cat, pc, found, serviceId, newPlanId)
    case Err(e) => Err(e)
    case Ok(plan) =>
      WrittenAnswer(s, found.instance, plan, UpdateParams(s, found.instance.labels.serviceName, raw))
  }

  lemma UpdateReply(cat: Catalog, pc: Checker, s: State, id: string, serviceId: string, oldPlanId: string,
                    newPlanId: string, raw: RawParams, listed: seq<string>, found: Found)
    requires Find(cat, s, oldPlanId, id, listed) == Ok(found)
    ensures UpdateInstance(cat, pc, s, id, serviceId, oldPlanId, newPlanId, raw, listed).reply
         == FoundAnswer(cat, pc, s, found, serviceId, newPlanId, raw)
  {
  }

  lemma FoundUpdateAnswers(cat: Catalog, pc: Checker, s: State, found: Found, serviceId: string, newPlanId: string,
                           raw: RawParams, service: Service)
    requires WellFormed(cat) && VersionsOk(s)
    requires ServiceOf(found.instance.labels.serviceName) == Some(service)
    requires found.instance.key in s.composites && s.composites[found.instance.key] == found.instance.composite
    requires found.instance.labels.serviceId == found.plan.labels.serviceId
    requires found.instance.key.gvk == ServiceGvk(service)
    ensures FoundAnswer(cat, pc, s, found, serviceId, newPlanId, raw)
         == UpdateAnswer(cat, pc, s, found.instance.key, found.plan, serviceId, newPlanId, raw, service)
  {
    PlanChangeAnswer(cat, pc, found, serviceId, newPlanId);
    if GetPlan(cat, newPlanId).Ok? {
      var plan := GetPlan(cat, newPlanId).value;
      assert PlanBuildsService(plan);
      WrittenAnswerMeaning(s, found.instance, plan, raw, service, PlanGvk(plan).value);
    }
  }

  /** The stored instance as its own plan finds it. */
  lemma StoredFound(cat: Catalog, s: State, key: Key, listed: seq<string>, service: Service) returns (found: Found)
    requires WellFormed(cat) && InstancesOk(cat, s)
    requires key in s.composites && key.gvk == ServiceGvk(service)
    ensures StoredPlan(cat, s.composites[key]) == Ok(found.plan) && found.plan.name == s.composites[key].compositionRef
    ensures Find(cat, s, found.plan.name, key.name, listed) == Ok(found)
    ensures found.instance.key == key && found.instance.composite == s.composites[key]
    ensures ServiceOf(found.instance.labels.serviceName) == Some(service)
    ensures found.instance.labels.serviceId == found.plan.labels.serviceId
  {
    var c := s.composites[key];
    StoredInstanceIsFound(cat, s, key);
    InstanceParses(cat, key, c);
    KindMatchesService(cat, key, c);
    var labels := ParseLabels(c.labels).value;
    ServiceGvkInjective(ServiceOf(labels.serviceName).value, service);
    found := Found(StoredPlan(cat, c).value, Instance(key, c, labels));
  }

  /** What an Update of a stored instance through the plan it is on answers. */
  lemma UpdateAnswers(cat: Catalog, pc: Checker, s: State, key: Key, serviceId: string, newPlanId: string,
                      raw: RawParams, listed: seq<string>, service: Service)
    requires WellFormed(cat) && InstancesOk(cat, s) && VersionsOk(s)
    requires key in s.composites && key.gvk == ServiceGvk(service)
    ensures StoredPlan(cat, s.composites[key]).Ok?
    ensures var plan := StoredPlan(cat, s.composites[key]).value;
            UpdateInstance(cat, pc, s, key.name, serviceId, plan.name, newPlanId, raw, listed).reply
            == UpdateAnswer(cat, pc, s, key, plan, serviceId, newPlanId, raw, service)
  {
    var found := StoredFound(cat, s, key, listed, service);
    UpdateReply(cat, pc, s, key.name, serviceId, found.plan.name, newPlanId, raw, listed, found);
    FoundUpdateAnswers(cat, pc, s, found, serviceId, newPlanId, raw, service);
  }

  // ---------------------------------------------------------------- Bind

  /** What is wrong with a connection secret. */
  function SecretRefusal(data: map<SecretKey, string>): Option<Error>
  {
    if data == map[] then Some(NoSecretData)
    else if EndpointKey !in data then Some(BindingNotFound)
    else if PortKey !in data || !IsInteger(data[PortKey]) then Some(InvalidPort)
    else None
  }

  function RedisRefusal(s: State, c: Composite): Option<Error>
  {
    if c.connection.None? then Some(NoSecretReference)
    else if c.connection.value !in s.secrets then Some(NotFound)
    else
      var data := s.secrets[c.connection.value].data;
      if SecretRefusal(data).Some? then SecretRefusal(data)
      else if SentinelPortKey !in data || !IsInteger(data[SentinelPortKey]) then Some(InvalidPort)
      else None
  }

  /** What is wrong with the connection of a database's cluster, once the binding has been created. */
  function ClusterRefusal(s: State, cluster: Composite, bindingId: string): Option<Error>
  {
    if cluster.connection.None? then Some(NoSecretReference)
    else if cluster.connection == Some(BindingPassword(bindingId)) then Some(BindingNotFound)
    else if cluster.connection.value !in s.secrets then Some(InstanceNotReady)
    else SecretRefusal(s.secrets[cluster.connection.value].data)
  }

  function DatabaseRefusal(s: State, instance: Instance, bindingId: string, password: Result<string>): Option<Error>
  {
    var params := instance.composite.params;
    if ParentReference !in params then Some(ParentReferenceMissing)
    else if !params[ParentReference].Str? then Some(Panic)
    else
      var key := Key(SynTools(MariaDBKind), params[ParentReference].s);
      if key !in s.composites then Some(NotFound)
      else if password.Err? then Some(password.error)
      else if BindingPassword(bindingId) in s.secrets then Some(AlreadyExists)
      else if bindingId == "" then Some(SchemaViolation)
      else if ClusterRefusal(s, s.composites[key], bindingId).Some? then ClusterRefusal(s, s.composites[key], bindingId)
      else if Key(SynTools(MariaDBKind), instance.labels.parentId) !in s.composites then Some(NotFound)
      else None
  }

  predicate IsDigit(c: char)
  {
    || c == '0' || c == '1' || c == '2' || c == '3' || c == '4'
    || c == '5' || c == '6' || c == '7' || c == '8' || c == '9'
  }

  predicate AllDigits(s: string)
  {
    forall i :: 0 <= i < |s| ==> IsDigit(s[i])
  }

  lemma DigitIff(c: char)
    ensures '0' <= c <= '9' <==> IsDigit(c)
  {
    var n := c as int;
    assert '0' <= c <= '9' <==> 48 <= n <= 57;
    assert n == 48 <==> c == '0';
  }

  lemma AllDigitsIff(s: string)
    ensures AllDigits(s) <==> forall i :: 0 <= i < |s| ==> '0' <= s[i] <= '9'
  {
    forall i | 0 <= i < |s| ensures '0' <= s[i] <= '9' <==> IsDigit(s[i]) {
      DigitIff(s[i]);
    }
  }

  /** A port is accepted exactly if it is digits, at least one, with or without a sign. */
  lemma IsIntegerIff(s: string)
    ensures IsInteger(s) <==> (s != "" && AllDigits(s)) || (|s| > 1 && s[0] in "+-" && AllDigits(s[1..]))
  {
    if s != "" && s[0] in "+-" {
      AllDigitsIff(s[1..]);
      assert !IsDigit(s[0]);
    } else {
      AllDigitsIff(s);
    }
  }

  lemma MapEndpointAnswer(data: map<SecretKey, string>)
    requires data != map[]
    ensures SecretRefusal(data).Some? ==> MapEndpoint(data) == Err(SecretRefusal(data).value)
    ensures SecretRefusal(data).None? ==> MapEndpoint(data) == Ok(Endpoint(data[EndpointKey], data[PortKey]))
  {
    assert !IsInteger("");
  }

  lemma RedisBindAnswers(s: State, instance: Instance)
    ensures match RedisRefusal(s, instance.composite)
            case Some(e) => BindRedis(s, instance) == Err(e)
            case None => BindRedis(s, instance).Ok?
  {
    assert !IsInteger("");
    if instance.composite.connection.Some? && instance.composite.connection.value in s.secrets {
      var data := s.secrets[instance.composite.connection.value].data;
      if data != map[] {
        MapEndpointAnswer(data);
      }
    }
  }

  /** The new password secret has no endpoint. */
  lemma PasswordIsNoConnection(password: string)
    ensures SecretRefusal(map[PasswordKey := password]) == Some(BindingNotFound)
  {
    assert PasswordKey in map[PasswordKey := password];
  }

  /** The store has one more secret, with just the password, and perhaps one more user composite. */
  ghost predicate OnlyCreated(s: State, s': State, bindingId: string, password: string)
  {
    && BindingPassword(bindingId) !in s.secrets && BindingPassword(bindingId) in s'.secrets
    && s'.secrets[BindingPassword(bindingId)].data == map[PasswordKey := password]
    && (forall n :: n != BindingPassword(bindingId) ==> (n in s'.secrets <==> n in s.secrets))
    && (forall n :: n in s.secrets ==> s'.secrets[n] == s.secrets[n])
    && (forall k: Key :: k.gvk != SynTools(UserKind) ==>
          (k in s'.composites <==> k in s.composites)
          && (k in s.composites ==> s'.composites[k] == s.composites[k]))
  }

  lemma CreatedAnswers(s: State, bindingId: string, instanceId: string, parent: string, password: Result<string>)
    ensures var o := CreateBinding(s, bindingId, instanceId, parent, password);
            if password.Err? then o == Outcome(s, Err(password.error))
            else if BindingPassword(bindingId) in s.secrets then o == Outcome(s, Err(AlreadyExists))
            else if bindingId == "" then o.reply == Err(SchemaViolation)
            else o.reply == password && OnlyCreated(s, o.state, bindingId, password.value)
  {
  }

  lemma CredentialsAnswer(s: State, instance: Instance, cluster: Composite, bindingId: string, password: string)
    ensures var r := BindCredentials(s, instance, cluster, bindingId, password);
            if cluster.connection.None? then r == Err(NoSecretReference)
            else if cluster.connection.value !in s.secrets then r == Err(InstanceNotReady)
            else
              var data := s.secrets[cluster.connection.value].data;
              if SecretRefusal(data).Some? then r == Err(SecretRefusal(data).value)
              else if Key(SynTools(MariaDBKind), instance.labels.parentId) !in s.composites then r == Err(NotFound)
              else r.Ok?
  {
    if cluster.connection.Some? && cluster.connection.value in s.secrets {
      var data := s.secrets[cluster.connection.value].data;
      if data != map[] {
        MapEndpointAnswer(data);
      }
    }
  }

  /** What reading the credentials answers in the store after the binding was created, in terms of the one before. */
  lemma ReadAfterCreation(s: State, s': State, instance: Instance, cluster: Composite, bindingId: string,
                          password: string)
    requires OnlyCreated(s, s', bindingId, password)
    ensures var r := BindCredentials(s', instance, cluster, bindingId, password);
            match ClusterRefusal(s, cluster, bindingId)
            case Some(e) => r == Err(e)
            case None =>
              if Key(SynTools(MariaDBKind), instance.labels.parentId) in s.composites then r.Ok? else r == Err(NotFound)
  {
    PasswordIsNoConnection(password);
    CredentialsAnswer(s', instance, cluster, bindingId, password);
  }

  /** What a database Bind answers. */
  lemma DatabaseBindAnswers(s: State, instance: Instance, bindingId: string, password: Result<string>)
    ensures match DatabaseRefusal(s, instance, bindingId, password)
            case Some(e) => BindDatabase(s, instance, bindingId, password).reply == Err(e)
            case None => BindDatabase(s, instance, bindingId, password).reply.Ok?
  {
    var params := instance.composite.params;
    if ParentReference in params && params[ParentReference].Str? {
      var parent := params[ParentReference].s;
      var key := Key(SynTools(MariaDBKind), parent);
      if key in s.composites {
        CreatedAnswers(s, bindingId, instance.key.name, parent, password);
        var o := CreateBinding(s, bindingId, instance.key.name, parent, password);
        if o.reply.Ok? {
          ReadAfterCreation(s, o.state, instance, s.composites[key], bindingId, password.value);
        }
      }
    }
  }

  function BindRefusal(s: State, instance: Instance, service: Service, bindingId: string, password: Result<string>)
    : Option<Error>
  {
    if !instance.composite.ready then Some(ConcurrentInstanceAccess)
    else
      match service
      case MariaDB => Some(BindingNotSupported)
      case Redis => RedisRefusal(s, instance.composite)
      case MariaDBDatabase => DatabaseRefusal(s, instance, bindingId, password)
  }

  /** What a Bind of a stored instance through the plan it is on answers. */
  lemma BindAnswers(cat: Catalog, s: State, key: Key, bindingId: string, listed: seq<string>,
                    password: Result<string>, service: Service)
    requires WellFormed(cat) && InstancesOk(cat, s)
    requires key in s.composites && key.gvk == ServiceGvk(service)
    ensures ParseLabels(s.composites[key].labels).Ok?
    ensures var c := s.composites[key];
            var instance := Instance(key, c, ParseLabels(c.labels).value);
            match BindRefusal(s, instance, service, bindingId, password)
            case Some(e) => Bind(cat, s, key.name, bindingId, c.compositionRef, listed, password).reply == Err(e)
            case None => Bind(cat, s, key.name, bindingId, c.compositionRef, listed, password).reply.Ok?
  {
    var c := s.composites[key];
    StoredInstanceIsFound(cat, s, key);
    KindMatchesService(cat, key, c);
    var instance := Instance(key, c, ParseLabels(c.labels).value);
    ServiceGvkInjective(ServiceOf(instance.labels.serviceName).value, service);
    RedisBindAnswers(s, instance);
    DatabaseBindAnswers(s, instance, bindingId, password);
  }

  // ---------------------------------------------------------------- What a Bind hands out

  /** The credentials of a Redis instance are what its connection secret says, whatever the binding id. */
  predicate RedisCredentials(s: State, instance: Instance, c: Credentials)
  {
    && instance.composite.connection.Some? && instance.composite.connection.value in s.secrets
    && (var data := s.secrets[instance.composite.connection.value].data;
        && EndpointKey in data && c.host == data[EndpointKey]
        && PortKey in data && c.port == data[PortKey]
        && c.password == (if PasswordKey in data then data[PasswordKey] else ""))
    && c.username == "" && c.database == instance.key.name && c.parent == ""
    && c.cluster == Text(instance.composite.labels, ClusterLabel)
  }

  lemma RedisHandsOut(s: State, instance: Instance)
    requires BindRedis(s, instance).Ok?
    ensures RedisCredentials(s, instance, BindRedis(s, instance).value)
  {
    assert !IsInteger("");
  }

  /** A Redis Bind that succeeds leaves the store alone and hands out what the connection secret says. */
  lemma RedisBindHandsOut(cat: Catalog, s: State, id: string, bindingId: string, planId: string, listed: seq<string>,
                          password: Result<string>)
    requires FindReady(cat, s, id, planId, listed).Ok?
    requires ServiceOf(FindReady(cat, s, id, planId, listed).value.labels.serviceName) == Some(Redis)
    requires Bind(cat, s, id, bindingId, planId, listed, password).reply.Ok?
    ensures var o := Bind(cat, s, id, bindingId, planId, listed, password);
            o.state == s && RedisCredentials(s, FindReady(cat, s, id, planId, listed).value, o.reply.value)
  {
    RedisHandsOut(s, FindReady(cat, s, id, planId, listed).value);
  }

  // ---------------------------------------------------------------- Unbind

  /** What the Unbind of a database binding answers: a missing object is a missing binding. */
  function UnbindAnswer(s: State, bindingId: string): Result<()>
  {
    if UserKey(bindingId) !in s.composites then Err(BindingDoesNotExist)
    else
      match LastUser(s.composites[UserKey(bindingId)].refs)
      case None => Err(NoUserInComposite)
      case Some(user) =>
        if BindingPassword(bindingId) !in s.secrets || user !in s.users then Err(BindingDoesNotExist) else Ok(())
  }

  /** What an Unbind answers once it has found a ready instance, for any store. */
  lemma FoundUnbindAnswers(cat: Catalog, s: State, id: string, bindingId: string, planId: string, listed: seq<string>)
    requires FindReady(cat, s, id, planId, listed).Ok?
    ensures var o := Unbind(cat, s, id, bindingId, planId, listed);
            var service := ServiceOf(FindReady(cat, s, id, planId, listed).value.labels.serviceName);
            && (service == Some(Redis) ==> o == Outcome(s, Ok(())))
            && (service == Some(MariaDB) ==> o == Outcome(s, Err(NotImplemented)))
            && (service == Some(MariaDBDatabase) ==>
                  o.reply == UnbindAnswer(s, bindingId) && (o.reply.Err? ==> o.state == s))
  {
  }

  /** An Unbind through a ready database says that the binding does not exist exactly when the composite is
      missing, or it has a User but the secret or that User is missing. */
  lemma UnbindMissingIff(cat: Catalog, s: State, id: string, bindingId: string, planId: string, listed: seq<string>)
    requires FindReady(cat, s, id, planId, listed).Ok?
    requires ServiceOf(FindReady(cat, s, id, planId, listed).value.labels.serviceName) == Some(MariaDBDatabase)
    ensures Unbind(cat, s, id, bindingId, planId, listed) == Outcome(s, Err(BindingDoesNotExist))
            <==> || UserKey(bindingId) !in s.composites
                 || (LastUser(s.composites[UserKey(bindingId)].refs).Some?
                     && (BindingPassword(bindingId) !in s.secrets
                         || LastUser(s.composites[UserKey(bindingId)].refs).value !in s.users))
  {
    FoundUnbindAnswers(cat, s, id, bindingId, planId, listed);
  }

  /** The reference at this place is a User, and no later one is. */
  ghost predicate IsLastUser(refs: seq<ResourceRef>, i: nat)
  {
    i < |refs| && refs[i].kind == UserRef && forall j :: i < j < |refs| ==> refs[j].kind != UserRef
  }

  /** The User of a composite is its last reference of kind User. */
  lemma {:induction false} LastUserIff(refs: seq<ResourceRef>) returns (i: nat)
    ensures LastUser(refs).Some? ==> IsLastUser(refs, i) && LastUser(refs) == Some(refs[i].name)
    ensures LastUser(refs).None? <==> forall k :: 0 <= k < |refs| ==> refs[k].kind != UserRef
  {
    i := 0;
    if refs != [] {
      if refs[|refs| - 1].kind == UserRef {
        i := |refs| - 1;
      } else {
        var init := refs[..|refs| - 1];
        i := LastUserIff(init);
        assert forall k :: 0 <= k < |init| ==> refs[k] == init[k];
      }
    }
  }

  // ---------------------------------------------------------------- Instances that are not found

  /** A request that does not find its instance answers why, and changes nothing. */
  lemma UnfoundAnswers(cat: Catalog, pc: Checker, s: State, id: string, planId: string, listed: seq<string>, e: Error)
    requires Find(cat, s, planId, id, listed) == Err(e)
    ensures Deprovision(cat, s, id, planId, listed) == Outcome(s, Err(e))
    ensures GetInstance(cat, s, id, planId, listed) == Err(e)
    ensures forall serviceId, newPlanId, raw ::
              UpdateInstance(cat, pc, s, id, serviceId, planId, newPlanId, raw, listed) == Outcome(s, Err(e))
    ensures forall bindingId, password :: Bind(cat, s, id, bindingId, planId, listed, password) == Outcome(s, Err(e))
    ensures forall bindingId :: Unbind(cat, s, id, bindingId, planId, listed) == Outcome(s, Err(e))
  {
  }

  /** Why a lookup with the plan finds nothing: the plan is not there or does not parse, no object of its kind has
      the id, or that object is on another plan. */
  lemma PlannedMiss(cat: Catalog, s: State, id: string, planId: string)
    requires WellFormed(cat) && InstancesOk(cat, s)
    ensures FindWithPlan(cat, s, planId, id)
         == if planId !in cat.compositions then Err(NotFound)
            else if GetPlan(cat, planId).Err? then Err(GetPlan(cat, planId).error)
            else
              var plan := GetPlan(cat, planId).value;
              if PlanGvk(plan).Err? then Err(PlanGvk(plan).error)
              else
                var key := Key(PlanGvk(plan).value, id);
                if key !in s.composites then Err(InstanceDoesNotExist)
                else if ParseLabels(s.composites[key].labels).Err? then Err(ParseLabels(s.composites[key].labels).error)
                else if Text(s.composites[key].labels, PlanNameLabel) != plan.labels.planName then Err(PlanMismatch)
                else Ok(Found(plan, Instance(key, s.composites[key], ParseLabels(s.composites[key].labels).value)))
  {
  }

  /** The search through plans answers with the first lookup that neither misses nor mismatches. */
  lemma {:induction false} SearchAnswers(s: State, id: string, plans: seq<Plan>, i: nat)
    requires i <= |plans|
    requires forall j :: 0 <= j < i ==> Lookup(s, id, plans[j]) in {Ok(None), Err(PlanMismatch)}
    requires i < |plans| ==> Lookup(s, id, plans[i]) !in {Ok(None), Err(PlanMismatch)}
    ensures FindIn(s, id, plans)
         == if i == |plans| then Err(PlanMismatch)
            else match Lookup(s, id, plans[i])
                 case Err(e) => Err(e)
                 case Ok(instance) => Ok(Found(plans[i], instance.value))
  {
    if i > 0 {
      assert Lookup(s, id, plans[0]) in {Ok(None), Err(PlanMismatch)};
      SearchAnswers(s, id, plans[1..], i - 1);
    }
  }
}
