/** The broker as it runs: objects that call the Kubernetes API step by step. Every method is proved to do
    what the corresponding function of `Requests` says. */
module Broker {
  import opened Types
  import opened Metadata
  import opened PlanPolicy
  import opened Store
  import opened Catalog
  import opened Requests
  import opened Instances
  import opened SerialRuns
  import opened Lifecycle
  import Admission
  import Answers

  // ---------------------------------------------------------------- The Kubernetes client

  class Client {
    var state: State

    constructor (initial: State)
      ensures state == initial
    {
      state := initial;
    }

    method Get(key: Key) returns (r: Result<Composite>)
      ensures r == Store.Get(state, key)
    {
      r := Store.Get(state, key);
    }

    method Create(key: Key, c: Composite) returns (r: Result<()>)
      modifies this
      ensures var made := Store.Create(old(state), key, c);
              if made.Ok? then r == Ok(()) && state == made.value else r == Err(made.error) && state == old(state)
    {
      var made := Store.Create(state, key, c);
      if made.Err? {
        return Err(made.error);
      }
      state := made.value;
      r := Ok(());
    }

    method Update(key: Key, c: Composite) returns (r: Result<()>)
      modifies this
      ensures var made := Store.Update(old(state), key, c);
              if made.Ok? then r == Ok(()) && state == made.value else r == Err(made.error) && state == old(state)
    {
      var made := Store.Update(state, key, c);
      if made.Err? {
        return Err(made.error);
      }
      state := made.value;
      r := Ok(());
    }

    method Delete(key: Key) returns (r: Result<()>)
      modifies this
      ensures var made := Store.Delete(old(state), key);
              if made.Ok? then r == Ok(()) && state == made.value else r == Err(made.error) && state == old(state)
    {
      var made := Store.Delete(state, key);
      if made.Err? {
        return Err(made.error);
      }
      state := made.value;
      r := Ok(());
    }

    method DeleteForeground(key: Key) returns (r: Result<()>)
      modifies this
      ensures var made := Store.DeleteForeground(old(state), key);
              if made.Ok? then r == Ok(()) && state == made.value else r == Err(made.error) && state == old(state)
    {
      var made := Store.DeleteForeground(state, key);
      if made.Err? {
        return Err(made.error);
      }
      state := made.value;
      r := Ok(());
    }

    method GetSecret(name: SecretName) returns (r: Result<Secret>)
      ensures r == Store.GetSecret(state, name)
    {
      r := Store.GetSecret(state, name);
    }

    method CreateSecret(name: SecretName, data: map<SecretKey, string>) returns (r: Result<()>)
      modifies this
      ensures var made := Store.CreateSecret(old(state), name, data);
              if made.Ok? then r == Ok(()) && state == made.value else r == Err(made.error) && state == old(state)
    {
      var made := Store.CreateSecret(state, name, data);
      if made.Err? {
        return Err(made.error);
      }
      state := made.value;
      r := Ok(());
    }

    method UpdateSecret(name: SecretName, secret: Secret) returns (r: Result<()>)
      modifies this
      ensures var made := Store.UpdateSecret(old(state), name, secret);
              if made.Ok? then r == Ok(()) && state == made.value else r == Err(made.error) && state == old(state)
    {
      var made := Store.UpdateSecret(state, name, secret);
      if made.Err? {
        return Err(made.error);
      }
      state := made.value;
      r := Ok(());
    }

    method HasUser(user: string) returns (found: bool)
      ensures found == (user in state.users)
    {
      found := user in state.users;
    }

    /** Lists, in some order, the names of the databases labelled with a parent. */
    method ListDatabases(parent: string) returns (names: seq<string>)
      ensures forall n :: n in names <==> n in Children(state, parent)
    {
      var rest := Children(state, parent);
      names := [];
      while rest != {}
        invariant forall n :: n in Children(state, parent) <==> n in names || n in rest
        decreases rest
      {
        var n :| n in rest;
        rest := rest - {n};
        names := names + [n];
      }
    }
  }

  // ---------------------------------------------------------------- Crossplane

  lemma {:induction false} NewPlansAppend(cat: Catalog, names: seq<string>, last: string)
    ensures NewPlans(cat, names + [last])
         == match NewPlans(cat, names)
            case Err(e) => Err(e)
            case Ok(plans) => match GetPlan(cat, last) case Err(e) => Err(e) case Ok(p) => Ok(plans + [p])
  {
    if names == [] {
      assert names + [last] == [last];
      assert [last][1..] == [];
      assert NewPlans(cat, []) == Ok([]);
      if GetPlan(cat, last).Ok? {
        assert [GetPlan(cat, last).value] + [] == [] + [GetPlan(cat, last).value];
      }
    } else {
      assert (names + [last])[1..] == names[1..] + [last];
      NewPlansAppend(cat, names[1..], last);
      if GetPlan(cat, names[0]).Ok? && NewPlans(cat, names[1..]).Ok? && GetPlan(cat, last).Ok? {
        var first, mid, p := GetPlan(cat, names[0]).value, NewPlans(cat, names[1..]).value, GetPlan(cat, last).value;
        assert [first] + (mid + [p]) == ([first] + mid) + [p];
      }
    }
  }

  lemma {:induction false} NewPlansPrefixError(cat: Catalog, names: seq<string>, more: seq<string>)
    requires NewPlans(cat, names).Err?
    ensures NewPlans(cat, names + more) == NewPlans(cat, names)
  {
    assert names != [];
    assert (names + more)[1..] == names[1..] + more;
    if GetPlan(cat, names[0]).Ok? {
      NewPlansPrefixError(cat, names[1..], more);
    }
  }

  lemma {:induction false} LastUserAppend(refs: seq<ResourceRef>, r: ResourceRef)
    ensures LastUser(refs + [r]) == if r.kind == UserRef then Some(r.name) else LastUser(refs)
  {
    assert (refs + [r])[..|refs|] == refs;
  }

  class Crossplane {
    const cat: Catalog
    const client: Client

    constructor (cat: Catalog, client: Client)
      ensures this.cat == cat && this.client == client
    {
      this.cat := cat;
      this.client := client;
    }

    /** All plans of the configured services, ordered by name, from what the API server listed. */
    method ListPlans(listed: seq<string>) returns (r: Result<seq<Plan>>)
      ensures r == Plans(cat, listed)
    {
      if cat.serviceIds == [] {
        return Err(NoServiceIds);
      }
      var names := SortByPlanName(cat, listed);
      var plans: seq<Plan> := [];
      for i := 0 to |names|
        invariant NewPlans(cat, names[..i]) == Ok(plans)
      {
        assert names[..i + 1] == names[..i] + [names[i]];
        NewPlansAppend(cat, names[..i], names[i]);
        var plan := GetPlan(cat, names[i]);
        if plan.Err? {
          NewPlansPrefixError(cat, names[..i + 1], names[i + 1..]);
          assert names[..i + 1] + names[i + 1..] == names;
          return Err(plan.error);
        }
        plans := plans + [plan.value];
      }
      assert names[..|names|] == names;
      r := Ok(plans);
    }

    method GetInstance(id: string, plan: Plan) returns (r: Result<Option<Instance>>)
      ensures r == Lookup(client.state, id, plan)
    {
      var gvk := PlanGvk(plan);
      if gvk.Err? {
        return Err(gvk.error);
      }
      var got := client.Get(Key(gvk.value, id));
      if got.Err? {
        return Ok(None);
      }
      var labels := ParseLabels(got.value.labels);
      if labels.Err? {
        return Err(labels.error);
      }
      if labels.value.planName != plan.labels.planName {
        return Err(PlanMismatch);
      }
      r := Ok(Some(Instance(Key(gvk.value, id), got.value, labels.value)));
    }

    /** Tries the plans one after another; a plan that does not match is skipped. */
    method FindInstanceWithoutPlan(id: string, listed: seq<string>) returns (r: Result<Found>)
      ensures r == FindWithoutPlan(cat, client.state, id, listed)
    {
      var listing := ListPlans(listed);
      if listing.Err? {
        return Err(listing.error);
      }
      var plans := listing.value;
      for i := 0 to |plans|
        invariant FindIn(client.state, id, plans) == FindIn(client.state, id, plans[i..])
      {
        var instance := GetInstance(id, plans[i]);
        assert plans[i..][0] == plans[i] && plans[i..][1..] == plans[i + 1..];
        if instance.Err? {
          if instance.error != PlanMismatch {
            return Err(instance.error);
          }
        } else if instance.value.Some? {
          return Ok(Found(plans[i], instance.value.value));
        }
      }
      assert plans[|plans|..] == [];
      r := Err(PlanMismatch);
    }

    method PrepareLabels(id: string, plan: Plan, params: Params, principal: Result<string>)
      returns (r: Result<LabelMap>)
      ensures r == Requests.PrepareLabels(id, plan, params, principal)
    {
      if principal.Err? {
        return Err(principal.error);
      }
      var l: LabelMap := map[InstanceIdLabel := id, PrincipalLabel := principal.value];
      var rest := CopiedLabels();
      while rest != {}
        invariant rest <= CopiedLabels()
        invariant forall key :: key in l
                                <==> (IsCopied(key) && key !in rest) || key.InstanceIdLabel? || key.PrincipalLabel?
        invariant forall key :: IsCopied(key) && key !in rest ==> l[key] == PlanLabel(plan, key)
        invariant l[InstanceIdLabel] == id && l[PrincipalLabel] == principal.value
        decreases rest
      {
        var name :| name in rest;
        l := l[name := PlanLabel(plan, name)];
        rest := rest - {name};
      }
      assert l == PlanLabels(plan, id, principal.value);
      if ParentReference in params && !params[ParentReference].Null? {
        if !params[ParentReference].Str? {
          return Err(Panic);
        }
        l := l[ParentIdLabel := params[ParentReference].s];
      }
      r := Ok(l);
    }

    /** Creates the composite of a new instance. */
    method CreateInstance(id: string, plan: Plan, params: Params, principal: Result<string>) returns (r: Result<()>)
      modifies client
      ensures match PrepareCreate(id, plan, params, principal)
              case Err(e) => r == Err(e) && client.state == old(client.state)
              case Ok(w) =>
                match Store.Create(old(client.state), w.key, w.composite)
                case Err(e) => r == Err(e) && client.state == old(client.state)
                case Ok(s') => r == Ok(()) && client.state == s'
    {
      var l := PrepareLabels(id, plan, params, principal);
      if l.Err? {
        return Err(l.error);
      }
      var gvk := PlanGvk(plan);
      if gvk.Err? {
        return Err(gvk.error);
      }
      r := client.Create(Key(gvk.value, id), NewComposite(plan, l.value, params));
    }

    /** Writes the fetched composite back with the plan's kind and the given parameters. */
    method UpdateInstance(name: string, composite: Composite, plan: Plan, params: Params) returns (r: Result<()>)
      modifies client
      ensures match PlanGvk(plan)
              case Err(e) => r == Err(e) && client.state == old(client.state)
              case Ok(gvk) =>
                match Store.Update(old(client.state), Key(gvk, name), composite.(params := params))
                case Err(e) => r == Err(e) && client.state == old(client.state)
                case Ok(s') => r == Ok(()) && client.state == s'
    {
      var gvk := PlanGvk(plan);
      if gvk.Err? {
        return Err(gvk.error);
      }
      r := client.Update(Key(gvk.value, name), composite.(params := params));
    }

    method DeleteInstance(name: string, plan: Plan) returns (r: Result<()>)
      modifies client
      ensures match PlanGvk(plan)
              case Err(e) => r == Err(e) && client.state == old(client.state)
              case Ok(gvk) =>
                match Store.Delete(old(client.state), Key(gvk, name))
                case Err(e) => r == Err(e) && client.state == old(client.state)
                case Ok(s') => r == Ok(()) && client.state == s'
    {
      var gvk := PlanGvk(plan);
      if gvk.Err? {
        return Err(gvk.error);
      }
      r := client.Delete(Key(gvk.value, name));
    }

    method GetConnectionDetails(c: Composite) returns (r: Result<Secret>)
      ensures r == ConnectionDetails(client.state, c)
    {
      if c.connection.None? {
        return Err(NoSecretReference);
      }
      r := client.GetSecret(c.connection.value);
      if r.Ok? && r.value.data == map[] {
        r := Err(NoSecretData);
      }
    }

    // -------------------------------------------------------------- Service binders

    /** Refuses to deprovision a MariaDB cluster in use, naming the databases on it. */
    method CheckDeprovisionable(instance: Instance) returns (r: Result<()>)
      ensures r == Deprovisionable(client.state, instance)
    {
      match ServiceOf(instance.labels.serviceName) {
        case None => return Err(InvalidService(instance.labels.serviceName));
        case Some(MariaDB) =>
          var items := client.ListDatabases(instance.key.name);
          if |items| > 0 {
            var instances: set<string> := {};
            for i := 0 to |items|
              invariant instances == set j | 0 <= j < i :: items[j]
            {
              instances := instances + {items[i]};
            }
            assert items[0] in items;
            assert instances == Children(client.state, instance.key.name);
            return Err(InUse(instances));
          }
          assert Children(client.state, instance.key.name) == {};
          return Ok(());
        case Some(_) => return Ok(());
      }
    }

    /** First the password secret, then the user composite. */
    method CreateBinding(bindingId: string, instanceId: string, parent: string, password: Result<string>)
      returns (r: Result<string>)
      modifies client
      ensures Outcome(client.state, r)
              == Requests.CreateBinding(old(client.state), bindingId, instanceId, parent, password)
    {
      if password.Err? {
        return Err(password.error);
      }
      var made := client.CreateSecret(BindingPassword(bindingId), map[PasswordKey := password.value]);
      if made.Err? {
        return Err(made.error);
      }
      made := client.Create(UserKey(bindingId), UserComposite(instanceId, parent));
      if made.Err? && made.error != AlreadyExists {
        return Err(made.error);
      }
      r := password;
    }

    method BindDatabase(instance: Instance, bindingId: string, password: Result<string>)
      returns (r: Result<Credentials>)
      modifies client
      ensures Outcome(client.state, r) == Requests.BindDatabase(old(client.state), instance, bindingId, password)
    {
      var parentRef := ParentRef(instance.composite.params);
      if parentRef.Err? {
        return Err(parentRef.error);
      }
      var cluster := client.Get(Key(SynTools(MariaDBKind), parentRef.value));
      if cluster.Err? {
        return Err(cluster.error);
      }
      var pw := CreateBinding(bindingId, instance.key.name, parentRef.value, password);
      if pw.Err? {
        return Err(pw.error);
      }
      var secret := GetConnectionDetails(cluster.value);
      if secret.Err? {
        return Err(if secret.error == NotFound then InstanceNotReady else secret.error);
      }
      var endpoint := MapEndpoint(secret.value.data);
      if endpoint.Err? {
        return Err(endpoint.error);
      }
      var parent := client.Get(Key(SynTools(MariaDBKind), instance.labels.parentId));
      if parent.Err? {
        return Err(parent.error);
      }
      r := Ok(Credentials(endpoint.value.host, endpoint.value.port, bindingId, pw.value, instance.key.name,
                          instance.labels.parentId, Text(parent.value.labels, ClusterLabel)));
    }

    /** Makes the composite's User, the last one it refers to, the owner of the password secret. */
    method MarkCredentialsForDeletion(bindingId: string) returns (r: Result<()>)
      modifies client
      ensures match MarkCredentials(old(client.state), bindingId)
              case Err(e) => r == Err(e) && client.state == old(client.state)
              case Ok(s') => r == Ok(()) && client.state == s'
    {
      var got := client.Get(UserKey(bindingId));
      if got.Err? {
        return Err(got.error);
      }
      var refs := got.value.refs;
      var userRef: Option<string> := None;
      for i := 0 to |refs|
        invariant userRef == LastUser(refs[..i])
        invariant client.state == old(client.state)
      {
        assert refs[..i + 1] == refs[..i] + [refs[i]];
        LastUserAppend(refs[..i], refs[i]);
        if refs[i].kind == UserRef {
          userRef := Some(refs[i].name);
        }
      }
      assert refs[..|refs|] == refs;
      if userRef.None? {
        return Err(NoUserInComposite);
      }
      var secret := client.GetSecret(BindingPassword(bindingId));
      if secret.Err? {
        return Err(secret.error);
      }
      var user := client.HasUser(userRef.value);
      if !user {
        return Err(NotFound);
      }
      r := client.UpdateSecret(BindingPassword(bindingId), secret.value.(owner := userRef));
    }

    method UnbindDatabase(bindingId: string) returns (r: Result<()>)
      modifies client
      ensures Outcome(client.state, r) == Requests.UnbindDatabase(old(client.state), bindingId)
    {
      r := MarkCredentialsForDeletion(bindingId);
      if r.Ok? {
        r := client.DeleteForeground(UserKey(bindingId));
      }
    }
  }

  // ---------------------------------------------------------------- The broker

  class ServiceBroker {
    const cp: Crossplane
    const checker: Checker

    constructor (cp: Crossplane, checker: Checker)
      ensures this.cp == cp && this.checker == checker
    {
      this.cp := cp;
      this.checker := checker;
    }

    method GetPlanInstance(planId: string, id: string, listed: seq<string>) returns (r: Result<Found>)
      ensures r == Find(cp.cat, cp.client.state, planId, id, listed)
    {
      if planId == "" {
        r := cp.FindInstanceWithoutPlan(id, listed);
        return;
      }
      var plan := GetPlan(cp.cat, planId);
      if plan.Err? {
        return Err(plan.error);
      }
      var instance := cp.GetInstance(id, plan.value);
      if instance.Err? {
        return Err(instance.error);
      }
      if instance.value.None? {
        return Err(InstanceDoesNotExist);
      }
      r := Ok(Found(plan.value, instance.value.value));
    }

    /** Redis rewrites the `tls` entry of the decoded parameters; a database has its parent looked up. */
    method ValidateParams(serviceName: string, raw: RawParams) returns (r: Result<Params>)
      ensures r == Requests.ValidateParams(cp.client.state, serviceName, raw)
    {
      match ServiceOf(serviceName) {
        case None => return Err(InvalidService(serviceName));
        case Some(MariaDB) => return Ok(map[]);
        case Some(Redis) =>
          if !raw.Decoded? {
            return Err(MalformedParameters);
          }
          var validated := raw.params;
          if Tls in validated && validated[Tls].Array? {
            if |validated[Tls].items| >= 1 {
              validated := validated[Tls := Bool(true)];
            } else {
              validated := validated[Tls := Bool(false)];
            }
          }
          return Ok(validated);
        case Some(MariaDBDatabase) =>
          if !raw.Decoded? {
            return Err(MalformedParameters);
          }
          var parent := ParentRef(raw.params);
          if parent.Err? {
            return Err(parent.error);
          }
          var cluster := cp.client.Get(Key(SynTools(MariaDBKind), parent.value));
          if cluster.Err? {
            return Err(ParentInvalid);
          }
          return Ok(raw.params);
      }
    }

    lemma ProvisionPromises(s: State, id: string, planId: string, raw: RawParams, principal: Result<string>)
      ensures var o := Requests.Provision(cp.cat, s, id, planId, raw, principal);
              && (if o.reply == Ok(Provisioned) then Adds(s, o.state, id) else o.state == s)
              && (WellFormed(cp.cat) && SerialInv(cp.cat, s) ==> SerialInv(cp.cat, o.state))
      ensures WellFormed(cp.cat) && GetPlan(cp.cat, planId).Ok? ==>
                var service := ServiceOf(GetPlan(cp.cat, planId).value.labels.serviceName);
                service.Some?
                && (Requests.Provision(cp.cat, s, id, planId, raw, principal).reply == Ok(Provisioned) <==>
                      Admission.MayProvision(s, service.value, id, raw, principal))
                && (InstancesOk(cp.cat, s) ==>
                      Requests.Provision(cp.cat, s, id, planId, raw, principal).reply
                      == Answers.ProvisionAnswer(s, service.value, GetPlan(cp.cat, planId).value.labels.planName, id,
                                                 raw, principal))
      ensures var o := Requests.Provision(cp.cat, s, id, planId, raw, principal);
              o.reply == Ok(Provisioned) ==> StoresNew(cp.cat, o.state, id, planId, principal)
    {
      ProvisionChangesOne(cp.cat, s, id, planId, raw, principal);
      if WellFormed(cp.cat) && SerialInv(cp.cat, s) {
        ProvisionKeeps(cp.cat, checker, s, id, planId, raw, principal);
      }
      if WellFormed(cp.cat) && GetPlan(cp.cat, planId).Ok? {
        var plan := GetPlan(cp.cat, planId).value;
        assert PlanBuildsService(plan);
        Admission.ProvisionSucceedsIff(cp.cat, s, id, plan, raw, principal, ServiceOf(plan.labels.serviceName).value);
        if InstancesOk(cp.cat, s) {
          Answers.ProvisionAnswers(cp.cat, s, id, plan, raw, principal, ServiceOf(plan.labels.serviceName).value);
        }
      }
      if Requests.Provision(cp.cat, s, id, planId, raw, principal).reply == Ok(Provisioned) {
        ProvisionStoresNew(cp.cat, s, id, planId, raw, principal);
      }
    }

    method Provision(id: string, planId: string, raw: RawParams, principal: Result<string>)
      returns (r: Result<ProvisionReply>)
      modifies cp.client
      ensures Outcome(cp.client.state, r)
              == Requests.Provision(cp.cat, old(cp.client.state), id, planId, raw, principal)
      ensures if r == Ok(Provisioned) then Adds(old(cp.client.state), cp.client.state, id)
              else cp.client.state == old(cp.client.state)
      ensures WellFormed(cp.cat) && SerialInv(cp.cat, old(cp.client.state)) ==> SerialInv(cp.cat, cp.client.state)
      ensures WellFormed(cp.cat) && GetPlan(cp.cat, planId).Ok? ==>
                var service := ServiceOf(GetPlan(cp.cat, planId).value.labels.serviceName);
                service.Some?
                && (r == Ok(Provisioned) <==>
                      Admission.MayProvision(old(cp.client.state), service.value, id, raw, principal))
                && (InstancesOk(cp.cat, old(cp.client.state)) ==>
                      r == Answers.ProvisionAnswer(old(cp.client.state), service.value,
                                                   GetPlan(cp.cat, planId).value.labels.planName, id, raw, principal))
      ensures r == Ok(Provisioned) ==> StoresNew(cp.cat, cp.client.state, id, planId, principal)
    {
      ProvisionPromises(cp.client.state, id, planId, raw, principal);
      var plan := GetPlan(cp.cat, planId);
      if plan.Err? {
        return Err(plan.error);
      }
      var instance := cp.GetInstance(id, plan.value);
      if instance.Err? {
        return Err(instance.error);
      }
      if instance.value.Some? {
        if raw.Absent? {
          return Ok(AlreadyProvisioned);
        }
        return Err(InstanceAlreadyExists);
      }
      var ap: Params := map[];
      if !raw.Absent? {
        var validated := ValidateParams(plan.value.labels.serviceName, raw);
        if validated.Err? {
          return Err(validated.error);
        }
        ap := validated.value;
      }
      var created := cp.CreateInstance(id, plan.value, ap, principal);
      if created.Err? {
        return Err(created.error);
      }
      r := Ok(Provisioned);
    }

    method Deprovision(id: string, planId: string, listed: seq<string>) returns (r: Result<()>)
      modifies cp.client
      ensures Outcome(cp.client.state, r) == Requests.Deprovision(cp.cat, old(cp.client.state), id, planId, listed)
      ensures if r.Ok? then Removes(old(cp.client.state), cp.client.state, id)
              else cp.client.state == old(cp.client.state)
      ensures WellFormed(cp.cat) && SerialInv(cp.cat, old(cp.client.state)) && Listing(cp.cat, listed) ==>
                SerialInv(cp.cat, cp.client.state)
    {
      DeprovisionChangesOne(cp.cat, cp.client.state, id, planId, listed);
      if WellFormed(cp.cat) && SerialInv(cp.cat, cp.client.state) && Listing(cp.cat, listed) {
        DeprovisionKeeps(cp.cat, checker, cp.client.state, id, planId, listed);
      }
      var found := GetPlanInstance(planId, id, listed);
      if found.Err? {
        return Err(found.error);
      }
      r := cp.CheckDeprovisionable(found.value.instance);
      if r.Ok? {
        r := cp.DeleteInstance(found.value.instance.key.name, found.value.plan);
      }
    }

    /** Rewrites the composition and then the two plan labels, one by one; parameters and all else stay. */
    method Relabel(c: Composite, plan: Plan) returns (r: Composite)
      ensures OnlyRetargeted(c, r, plan, c.params) && r.version == c.version
      ensures r == Retarget(c, plan, c.params)
    {
      var labels := c.labels;
      var keys := [PlanNameLabel, SlaLabel];
      for i := 0 to |keys|
        invariant labels == if i == 0 then c.labels
                            else if i == 1 then c.labels[PlanNameLabel := PlanLabel(plan, PlanNameLabel)]
                            else c.labels[PlanNameLabel := PlanLabel(plan, PlanNameLabel)]
                                         [SlaLabel := PlanLabel(plan, SlaLabel)]
      {
        labels := labels[keys[i] := PlanLabel(plan, keys[i])];
      }
      r := c.(compositionRef := plan.name, labels := labels);
    }

    lemma UpdatePromises(s: State, id: string, serviceId: string, oldPlanId: string, newPlanId: string,
                         raw: RawParams, listed: seq<string>)
      ensures var o := UpdateInstance(cp.cat, checker, s, id, serviceId, oldPlanId, newPlanId, raw, listed);
              && (if o.reply.Ok? then Rewrites(s, o.state, id) else o.state == s)
              && (WellFormed(cp.cat) && SerialInv(cp.cat, s) && Listing(cp.cat, listed) ==>
                    SerialInv(cp.cat, o.state)
                    && (o.reply.Ok? ==> MovesPlan(cp.cat, checker, s, o.state, id, newPlanId)))
    {
      UpdateChangesOne(cp.cat, checker, s, id, serviceId, oldPlanId, newPlanId, raw, listed);
      if WellFormed(cp.cat) && SerialInv(cp.cat, s) && Listing(cp.cat, listed) {
        UpdateMovesPlan(cp.cat, checker, s, id, serviceId, oldPlanId, newPlanId, raw, listed);
      }
    }

    /** Rewrites the composition and its labels, then the parameters. */
    method Update(id: string, serviceId: string, oldPlanId: string, newPlanId: string, raw: RawParams,
                  listed: seq<string>)
      returns (r: Result<()>)
      modifies cp.client
      ensures Outcome(cp.client.state, r)
           == Requests.UpdateInstance(cp.cat, checker, old(cp.client.state), id, serviceId, oldPlanId, newPlanId, raw,
                                      listed)
      ensures if r.Ok? then Rewrites(old(cp.client.state), cp.client.state, id)
              else cp.client.state == old(cp.client.state)
      ensures WellFormed(cp.cat) && SerialInv(cp.cat, old(cp.client.state)) && Listing(cp.cat, listed) ==>
                SerialInv(cp.cat, cp.client.state)
                && (r.Ok? ==> MovesPlan(cp.cat, checker, old(cp.client.state), cp.client.state, id, newPlanId))
    {
      UpdatePromises(cp.client.state, id, serviceId, oldPlanId, newPlanId, raw, listed);
      var found := GetPlanInstance(oldPlanId, id, listed);
      if found.Err? {
        return Err(found.error);
      }
      var instance := found.value.instance;
      if instance.labels.serviceId != serviceId {
        return Err(ServiceUpdateNotPermitted);
      }
      var np := GetPlan(cp.cat, newPlanId);
      if np.Err? {
        return Err(np.error);
      }
      var allowed := CheckUpdate(checker, found.value.plan.labels, np.value.labels);
      if !allowed {
        return Err(PlanChangeNotPermitted);
      }
      var composite := Relabel(instance.composite, np.value);
      var ap: Params := map[];
      if !raw.Absent? && !raw.Empty? {
        var validated := ValidateParams(instance.labels.serviceName, raw);
        if validated.Err? {
          return Err(validated.error);
        }
        ap := validated.value;
      }
      assert composite.(params := ap) == Retarget(instance.composite, np.value, ap);
      r := cp.UpdateInstance(instance.key.name, composite, np.value, ap);
    }

    method GetInstance(id: string, planId: string, listed: seq<string>) returns (r: Result<InstanceInfo>)
      ensures r == Requests.GetInstance(cp.cat, cp.client.state, id, planId, listed)
      ensures Listing(cp.cat, listed) && r.Ok? ==> Reports(cp.cat, cp.client.state, id, r.value)
    {
      if Listing(cp.cat, listed) && Requests.GetInstance(cp.cat, cp.client.state, id, planId, listed).Ok? {
        GetInstanceReports(cp.cat, cp.client.state, id, planId, listed);
      }
      var found := GetPlanInstance(planId, id, listed);
      if found.Err? {
        return Err(found.error);
      }
      r := Ok(InstanceInfo(found.value.plan.name, found.value.plan.labels.serviceId,
                           found.value.instance.composite.params));
    }

    method GetReadyInstance(id: string, planId: string, listed: seq<string>) returns (r: Result<Instance>)
      ensures r == FindReady(cp.cat, cp.client.state, id, planId, listed)
    {
      var found := GetPlanInstance(planId, id, listed);
      if found.Err? {
        return Err(found.error);
      }
      if !found.value.instance.composite.ready {
        return Err(ConcurrentInstanceAccess);
      }
      r := Ok(found.value.instance);
    }

    method Bind(id: string, bindingId: string, planId: string, listed: seq<string>, password: Result<string>)
      returns (r: Result<Credentials>)
      modifies cp.client
      ensures Outcome(cp.client.state, r)
           == Requests.Bind(cp.cat, old(cp.client.state), id, bindingId, planId, listed, password)
      ensures SerialInv(cp.cat, old(cp.client.state)) ==>
                OnlyBindings(old(cp.client.state), cp.client.state) && SerialInv(cp.cat, cp.client.state)
      ensures r.Ok? && cp.client.state != old(cp.client.state) ==>
                password == Ok(r.value.password) && BindingPassword(bindingId) !in old(cp.client.state).secrets
                && StoresPassword(cp.client.state, bindingId, r.value.password)
      ensures r.Ok? ==>
                FindReady(cp.cat, old(cp.client.state), id, planId, listed).Ok?
                && HandsOut(cp.client.state, FindReady(cp.cat, old(cp.client.state), id, planId, listed).value,
                            bindingId, r.value)
    {
      if Requests.Bind(cp.cat, cp.client.state, id, bindingId, planId, listed, password).reply.Ok? {
        BindFits(cp.cat, cp.client.state, id, bindingId, planId, listed, password);
      }
      BindPromises(cp.cat, checker, cp.client.state, id, bindingId, planId, listed, password);
      var instance := GetReadyInstance(id, planId, listed);
      if instance.Err? {
        return Err(instance.error);
      }
      match ServiceOf(instance.value.labels.serviceName) {
        case None => return Err(InvalidService(instance.value.labels.serviceName));
        case Some(Redis) => return BindRedis(cp.client.state, instance.value);
        case Some(MariaDB) => return Err(BindingNotSupported);
        case Some(MariaDBDatabase) =>
          r := cp.BindDatabase(instance.value, bindingId, password);
          return;
      }
    }

    method Unbind(id: string, bindingId: string, planId: string, listed: seq<string>) returns (r: Result<()>)
      modifies cp.client
      ensures Outcome(cp.client.state, r)
              == Requests.Unbind(cp.cat, old(cp.client.state), id, bindingId, planId, listed)
      ensures SerialInv(cp.cat, old(cp.client.state)) ==>
                OnlyBindings(old(cp.client.state), cp.client.state) && SerialInv(cp.cat, cp.client.state)
      ensures r.Err? ==> cp.client.state == old(cp.client.state)
      ensures cp.client.state != old(cp.client.state) ==> MarkedForDeletion(cp.client.state, bindingId)
      ensures var ready := FindReady(cp.cat, old(cp.client.state), id, planId, listed);
              ready.Ok? && ServiceOf(ready.value.labels.serviceName) == Some(MariaDBDatabase) ==>
                r == Answers.UnbindAnswer(old(cp.client.state), bindingId)
    {
      if FindReady(cp.cat, cp.client.state, id, planId, listed).Ok? {
        Answers.FoundUnbindAnswers(cp.cat, cp.client.state, id, bindingId, planId, listed);
      }
      UnbindPromises(cp.cat, checker, cp.client.state, id, bindingId, planId, listed);
      var instance := GetReadyInstance(id, planId, listed);
      if instance.Err? {
        return Err(instance.error);
      }
      match ServiceOf(instance.value.labels.serviceName) {
        case None => return Err(InvalidService(instance.value.labels.serviceName));
        case Some(Redis) => return Ok(());
        case Some(MariaDB) => return Err(NotImplemented);
        case Some(MariaDBDatabase) =>
          r := cp.UnbindDatabase(bindingId);
          if r == Err(NotFound) {
            r := Err(BindingDoesNotExist);
          }
          return;
      }
    }
  }
}
