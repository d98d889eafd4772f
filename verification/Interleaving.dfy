/** Provision, Update and Deprovision as small-step programs: every client call is a step of its own, any
    number of requests interleave, and each call may fail before or after it took effect. */
module Interleaving {
  import opened Types
  import opened Metadata
  import opened PlanPolicy
  import opened Store
  import opened Catalog
  import opened Requests

  datatype Request =
    | ProvisionRequest(id: string, planId: string, raw: RawParams, principal: Result<string>)
    | UpdateRequest(id: string, serviceId: string, planId: string, newPlanId: string, raw: RawParams,
                    listed: seq<string>)
    | DeprovisionRequest(id: string, planId: string, listed: seq<string>)

  datatype Answer = Already | Changed

  /** The call a request is about to make, with what it has learned so far. */
  datatype Point =
    | GetInstanceFor(plan: Plan)
    | GetParentForCreate(parent: string, plan: Plan, params: Params)
    | CallCreate(write: Write)
    | SearchPlans(plans: seq<Plan>)
    | GetParentForUpdate(parent: string, found: Found, plan: Plan, params: Params)
    | CallUpdate(found: Found, plan: Plan, params: Params)
    | ListDatabases(found: Found)
    | CallDelete(key: Key)
    | Done(answer: Result<Answer>)

  /** How a call fares: it works, it is lost on the way, or its reply is lost after it took effect. */
  datatype Fault = NoFault | LostRequest | LostReply

  // ---------------------------------------------------------------- Between two calls

  datatype ParamsStep = Ready(params: Params) | NeedsParent(parent: string, params: Params)

  /** Validation up to the point where the store has to be asked. */
  function LocalParams(serviceName: string, raw: RawParams): Result<ParamsStep>
  {
    match ServiceOf(serviceName)
    case None => Err(InvalidService(serviceName))
    case Some(MariaDB) => Ok(Ready(map[]))
    case Some(Redis) =>
      var params :- Decode(raw);
      Ok(Ready(NormaliseTls(params)))
    case Some(MariaDBDatabase) =>
      var params :- Decode(raw);
      var parent :- ParentRef(params);
      Ok(NeedsParent(parent, params))
  }

  function ReadyToCreate(id: string, plan: Plan, params: Params, principal: Result<string>): Point
  {
    match PrepareCreate(id, plan, params, principal)
    case Err(e) => Done(Err(e))
    case Ok(write) => CallCreate(write)
  }

  function AfterMiss(req: Request, plan: Plan): Point
    requires req.ProvisionRequest?
  {
    if req.raw.Absent? then ReadyToCreate(req.id, plan, map[], req.principal)
    else
      match LocalParams(plan.labels.serviceName, req.raw)
      case Err(e) => Done(Err(e))
      case Ok(Ready(params)) => ReadyToCreate(req.id, plan, params, req.principal)
      case Ok(NeedsParent(parent, params)) => GetParentForCreate(parent, plan, params)
  }

  function ReadyToUpdate(found: Found, plan: Plan, params: Params): Point
  {
    if PlanGvk(plan).Err? then Done(Err(PlanGvk(plan).error)) else CallUpdate(found, plan, params)
  }

  function AfterPlanChange(req: Request, found: Found, plan: Plan): Point
    requires req.UpdateRequest?
  {
    if req.raw.Absent? || req.raw.Empty? then ReadyToUpdate(found, plan, map[])
    else
      match LocalParams(found.instance.labels.serviceName, req.raw)
      case Err(e) => Done(Err(e))
      case Ok(Ready(params)) => ReadyToUpdate(found, plan, params)
      case Ok(NeedsParent(parent, params)) => GetParentForUpdate(parent, found, plan, params)
  }

  function AfterFoundForUpdate(cat: Catalog, pc: Checker, req: Request, found: Found): Point
    requires req.UpdateRequest?
  {
    match DecidePlanChange(cat, pc, found, req.serviceId, req.newPlanId)
    case Err(e) => Done(Err(e))
    case Ok(plan) => AfterPlanChange(req, found, plan)
  }

  function ReadyToDelete(found: Found): Point
  {
    match PlanGvk(found.plan)
    case Err(e) => Done(Err(e))
    case Ok(gvk) => CallDelete(Key(gvk, found.instance.key.name))
  }

  function AfterFoundForDeprovision(found: Found): Point
  {
    match ServiceOf(found.instance.labels.serviceName)
    case None => Done(Err(InvalidService(found.instance.labels.serviceName)))
    case Some(MariaDB) => ListDatabases(found)
    case Some(_) => ReadyToDelete(found)
  }

  function AfterFound(cat: Catalog, pc: Checker, req: Request, found: Found): Point
    requires !req.ProvisionRequest?
  {
    if req.UpdateRequest? then AfterFoundForUpdate(cat, pc, req, found) else AfterFoundForDeprovision(found)
  }

  function SearchNext(plans: seq<Plan>): Point
  {
    if plans == [] then Done(Err(PlanMismatch)) else SearchPlans(plans)
  }

  /** The first call of a request. */
  function Start(cat: Catalog, req: Request): Point
  {
    if req.ProvisionRequest? then
      match GetPlan(cat, req.planId) case Err(e) => Done(Err(e)) case Ok(plan) => GetInstanceFor(plan)
    else if req.planId == "" then
      match Plans(cat, req.listed) case Err(e) => Done(Err(e)) case Ok(plans) => SearchNext(plans)
    else
      match GetPlan(cat, req.planId) case Err(e) => Done(Err(e)) case Ok(plan) => SearchPlans([plan])
  }

  // ---------------------------------------------------------------- One call

  datatype Stepped = Stepped(state: State, point: Point)

  /** A write takes effect unless it is lost; its caller learns of it unless the reply is lost. */
  function WriteCall(s: State, result: Result<State>, fault: Fault): Stepped
  {
    match fault
    case LostRequest => Stepped(s, Done(Err(CallFailed)))
    case LostReply => Stepped(if result.Ok? then result.value else s, Done(Err(CallFailed)))
    case NoFault =>
      match result
      case Err(e) => Stepped(s, Done(Err(e)))
      case Ok(s') => Stepped(s', Done(Ok(Changed)))
  }

  function ReadStep(cat: Catalog, pc: Checker, req: Request, point: Point, s: State): Point
    requires point.GetInstanceFor? || point.GetParentForCreate? ==> req.ProvisionRequest?
    requires point.SearchPlans? ==> !req.ProvisionRequest? && point.plans != []
  {
    match point
    case GetInstanceFor(plan) =>
      (match Lookup(s, req.id, plan)
       case Err(e) => Done(Err(e))
       case Ok(Some(_)) => if req.raw.Absent? then Done(Ok(Already)) else Done(Err(InstanceAlreadyExists))
       case Ok(None) => AfterMiss(req, plan))
    case GetParentForCreate(parent, plan, params) =>
      if Get(s, Key(SynTools(MariaDBKind), parent)).Ok? then ReadyToCreate(req.id, plan, params, req.principal)
      else Done(Err(ParentInvalid))
    case SearchPlans(plans) =>
      (match Lookup(s, req.id, plans[0])
       case Ok(Some(instance)) => AfterFound(cat, pc, req, Found(plans[0], instance))
       case Ok(None) => if req.planId == "" then SearchNext(plans[1..]) else Done(Err(InstanceDoesNotExist))
       case Err(e) => if req.planId == "" && e == PlanMismatch then SearchNext(plans[1..]) else Done(Err(e)))
    case GetParentForUpdate(parent, found, plan, params) =>
      if Get(s, Key(SynTools(MariaDBKind), parent)).Ok? then ReadyToUpdate(found, plan, params)
      else Done(Err(ParentInvalid))
    case ListDatabases(found) =>
      var children := Children(s, found.instance.key.name);
      if children != {} then Done(Err(InUse(children))) else ReadyToDelete(found)
    case _ => point
  }

  /** The write an Update is about to make. */
  function UpdateWrite(found: Found, plan: Plan, params: Params): Write
    requires PlanGvk(plan).Ok?
  {
    Write(Key(PlanGvk(plan).value, found.instance.key.name), Retarget(found.instance.composite, plan, params))
  }

  /** A request is at a point of its own program. */
  predicate Proper(req: Request, point: Point)
  {
    && (point.GetInstanceFor? || point.GetParentForCreate? || point.CallCreate? ==> req.ProvisionRequest?)
    && (point.SearchPlans? ==> !req.ProvisionRequest? && point.plans != [])
    && (point.GetParentForUpdate? || point.CallUpdate? ==> req.UpdateRequest?)
    && (point.ListDatabases? || point.CallDelete? ==> req.DeprovisionRequest?)
    && (point.CallUpdate? ==> PlanGvk(point.plan).Ok?)
  }

  function Step(cat: Catalog, pc: Checker, req: Request, point: Point, s: State, fault: Fault): Stepped
    requires Proper(req, point)
  {
    match point
    case Done(_) => Stepped(s, point)
    case CallCreate(w) => WriteCall(s, Create(s, w.key, w.composite), fault)
    case CallUpdate(found, plan, params) =>
      var w := UpdateWrite(found, plan, params);
      WriteCall(s, Store.Update(s, w.key, w.composite), fault)
    case CallDelete(key) => WriteCall(s, Delete(s, key), fault)
    case _ => if fault.NoFault? then Stepped(s, ReadStep(cat, pc, req, point, s)) else Stepped(s, Done(Err(CallFailed)))
  }

  lemma StartIsProper(cat: Catalog, req: Request)
    ensures Proper(req, Start(cat, req))
  {
  }

  lemma AfterMissIsProper(req: Request, plan: Plan)
    requires req.ProvisionRequest?
    ensures Proper(req, AfterMiss(req, plan))
  {
  }

  lemma AfterFoundForUpdateIsProper(cat: Catalog, pc: Checker, req: Request, found: Found)
    requires req.UpdateRequest?
    ensures Proper(req, AfterFoundForUpdate(cat, pc, req, found))
  {
  }

  lemma AfterFoundForDeprovisionIsProper(req: Request, found: Found)
    requires req.DeprovisionRequest?
    ensures Proper(req, AfterFoundForDeprovision(found))
  {
  }

  lemma AfterFoundIsProper(cat: Catalog, pc: Checker, req: Request, found: Found)
    requires !req.ProvisionRequest?
    ensures Proper(req, AfterFound(cat, pc, req, found))
  {
    if req.UpdateRequest? {
      AfterFoundForUpdateIsProper(cat, pc, req, found);
    } else {
      AfterFoundForDeprovisionIsProper(req, found);
    }
  }

  lemma SearchIsProper(cat: Catalog, pc: Checker, req: Request, plans: seq<Plan>, s: State)
    requires !req.ProvisionRequest? && plans != []
    ensures Proper(req, ReadStep(cat, pc, req, SearchPlans(plans), s))
  {
    var r := Lookup(s, req.id, plans[0]);
    if r.Ok? && r.value.Some? {
      AfterFoundIsProper(cat, pc, req, Found(plans[0], r.value.value));
    }
  }

  lemma ReadStepIsProper(cat: Catalog, pc: Checker, req: Request, point: Point, s: State)
    requires Proper(req, point) && !point.CallCreate? && !point.CallUpdate? && !point.CallDelete?
    ensures Proper(req, ReadStep(cat, pc, req, point, s))
  {
    match point
    case GetInstanceFor(plan) => AfterMissIsProper(req, plan);
    case SearchPlans(plans) => SearchIsProper(cat, pc, req, plans, s);
    case _ =>
  }

  lemma StepIsProper(cat: Catalog, pc: Checker, req: Request, point: Point, s: State, fault: Fault)
    requires Proper(req, point)
    ensures Proper(req, Step(cat, pc, req, point, s, fault).point)
  {
    if !point.CallCreate? && !point.CallUpdate? && !point.CallDelete? {
      ReadStepIsProper(cat, pc, req, point, s);
    }
  }

  // ---------------------------------------------------------------- A request running alone

  function Remaining(point: Point): nat
  {
    match point
    case Done(_) => 0
    case CallCreate(_) => 1
    case CallUpdate(_, _, _) => 1
    case CallDelete(_) => 1
    case GetParentForCreate(_, _, _) => 2
    case GetParentForUpdate(_, _, _, _) => 2
    case ListDatabases(_) => 2
    case GetInstanceFor(_) => 3
    case SearchPlans(plans) => |plans| + 3
  }

  lemma StepDecreases(cat: Catalog, pc: Checker, req: Request, point: Point, s: State, fault: Fault)
    requires Proper(req, point) && !point.Done?
    ensures Remaining(Step(cat, pc, req, point, s, fault).point) < Remaining(point)
  {
  }

  /** The request without interference and without faults. */
  function RunAlone(cat: Catalog, pc: Checker, req: Request, point: Point, s: State): Stepped
    decreases Remaining(point)
  {
    if point.Done? || !Proper(req, point) then Stepped(s, point)
    else
      StepDecreases(cat, pc, req, point, s, NoFault);
      var next := Step(cat, pc, req, point, s, NoFault);
      RunAlone(cat, pc, req, next.point, next.state)
  }

  /** The rest of an Update or Deprovision, given what the search has found. */
  function AfterFind(cat: Catalog, pc: Checker, req: Request, found: Result<Found>, s: State): Stepped
    requires !req.ProvisionRequest?
  {
    match found
    case Err(e) => Stepped(s, Done(Err(e)))
    case Ok(f) => RunAlone(cat, pc, req, AfterFound(cat, pc, req, f), s)
  }

  /** The rest of an Update, given the new plan and the validated parameters. */
  function AfterValidation(cat: Catalog, pc: Checker, req: Request, found: Found, plan: Plan, params: Result<Params>,
                           s: State): Stepped
  {
    match params
    case Err(e) => Stepped(s, Done(Err(e)))
    case Ok(ps) => RunAlone(cat, pc, req, ReadyToUpdate(found, plan, ps), s)
  }

  function AfterDecision(cat: Catalog, pc: Checker, req: Request, found: Found, plan: Result<Plan>, s: State): Stepped
    requires req.UpdateRequest?
  {
    match plan
    case Err(e) => Stepped(s, Done(Err(e)))
    case Ok(np) =>
      AfterValidation(cat, pc, req, found, np, UpdateParams(s, found.instance.labels.serviceName, req.raw), s)
  }

  function AfterInUseCheck(cat: Catalog, pc: Checker, req: Request, found: Found, check: Result<()>, s: State): Stepped
  {
    match check
    case Err(e) => Stepped(s, Done(Err(e)))
    case Ok(_) => RunAlone(cat, pc, req, ReadyToDelete(found), s)
  }

  /** The rest of a Provision, given the validated parameters. */
  function AfterCreateValidation(cat: Catalog, pc: Checker, req: Request, plan: Plan, params: Result<Params>,
                                 s: State): Stepped
    requires req.ProvisionRequest?
  {
    match params
    case Err(e) => Stepped(s, Done(Err(e)))
    case Ok(ps) => RunAlone(cat, pc, req, ReadyToCreate(req.id, plan, ps, req.principal), s)
  }

  function PerformUpdate(s: State, w: Result<Write>): Stepped
  {
    match w
    case Err(e) => Stepped(s, Done(Err(e)))
    case Ok(write) => WriteCall(s, Store.Update(s, write.key, write.composite), NoFault)
  }

  function PerformCreate(s: State, w: Result<Write>): Stepped
  {
    match w
    case Err(e) => Stepped(s, Done(Err(e)))
    case Ok(write) => WriteCall(s, Create(s, write.key, write.composite), NoFault)
  }

  function PerformDelete(s: State, gvk: Result<Gvk>, name: string): Stepped
  {
    match gvk
    case Err(e) => Stepped(s, Done(Err(e)))
    case Ok(g) => WriteCall(s, Delete(s, Key(g, name)), NoFault)
  }

  function AsAnswer(r: Result<()>): Result<Answer>
  {
    match r case Err(e) => Err(e) case Ok(_) => Ok(Changed)
  }

  function AsProvisionAnswer(r: Result<ProvisionReply>): Result<Answer>
  {
    match r case Err(e) => Err(e) case Ok(AlreadyProvisioned) => Ok(Already) case Ok(Provisioned) => Ok(Changed)
  }

  lemma StepSearch(cat: Catalog, pc: Checker, req: Request, plans: seq<Plan>, s: State)
    requires !req.ProvisionRequest? && plans != []
    ensures RunAlone(cat, pc, req, SearchPlans(plans), s)
         == RunAlone(cat, pc, req, ReadStep(cat, pc, req, SearchPlans(plans), s), s)
  {
  }

  /** The planless search, call by call, arrives where the search function does. */
  lemma {:induction false} AloneSearch(cat: Catalog, pc: Checker, req: Request, plans: seq<Plan>, s: State)
    requires !req.ProvisionRequest? && req.planId == "" && plans != []
    ensures RunAlone(cat, pc, req, SearchPlans(plans), s)
         == AfterFind(cat, pc, req, FindIn(s, req.id, plans), s)
    decreases |plans|
  {
    StepSearch(cat, pc, req, plans, s);
    var r := Lookup(s, req.id, plans[0]);
    if r == Ok(None) || r == Err(PlanMismatch) {
      if |plans| > 1 {
        AloneSearch(cat, pc, req, plans[1..], s);
      } else {
        assert plans[1..] == [];
      }
    }
  }

  /** Finding the instance, call by call, is the lookup of the request taken as a whole. */
  lemma AloneFind(cat: Catalog, pc: Checker, req: Request, s: State)
    requires !req.ProvisionRequest?
    ensures RunAlone(cat, pc, req, Start(cat, req), s)
         == AfterFind(cat, pc, req, Find(cat, s, req.planId, req.id, req.listed), s)
  {
    StartIsProper(cat, req);
    if req.planId == "" {
      match Plans(cat, req.listed)
      case Err(_) =>
      case Ok(plans) => if plans != [] { AloneSearch(cat, pc, req, plans, s); }
    } else {
      match GetPlan(cat, req.planId)
      case Err(_) =>
      case Ok(plan) => StepSearch(cat, pc, req, [plan], s);
    }
  }

  lemma LocalParamsMeaning(s: State, serviceName: string, raw: RawParams)
    ensures ValidateParams(s, serviceName, raw)
         == match LocalParams(serviceName, raw)
            case Err(e) => Err(e)
            case Ok(Ready(params)) => Ok(params)
            case Ok(NeedsParent(parent, params)) =>
              if Get(s, Key(SynTools(MariaDBKind), parent)).Ok? then Ok(params) else Err(ParentInvalid)
  {
  }

  lemma AloneUpdateCall(cat: Catalog, pc: Checker, req: Request, found: Found, plan: Plan, params: Params, s: State)
    requires req.UpdateRequest?
    ensures RunAlone(cat, pc, req, ReadyToUpdate(found, plan, params), s)
         == PerformUpdate(s, PrepareUpdate(found.instance, plan, params))
  {
  }

  lemma AloneUpdateFound(cat: Catalog, pc: Checker, req: Request, found: Found, s: State)
    requires req.UpdateRequest?
    ensures RunAlone(cat, pc, req, AfterFound(cat, pc, req, found), s)
         == AfterDecision(cat, pc, req, found, DecidePlanChange(cat, pc, found, req.serviceId, req.newPlanId), s)
  {
    AfterFoundIsProper(cat, pc, req, found);
    LocalParamsMeaning(s, found.instance.labels.serviceName, req.raw);
  }

  /** An Update whose calls nothing comes between is the atomic Update. */
  lemma AloneUpdateIsAtomic(cat: Catalog, pc: Checker, req: Request, s: State)
    requires req.UpdateRequest?
    ensures RunAlone(cat, pc, req, Start(cat, req), s)
         == var o := UpdateInstance(cat, pc, s, req.id, req.serviceId, req.planId, req.newPlanId, req.raw, req.listed);
            Stepped(o.state, Done(AsAnswer(o.reply)))
  {
    AloneFind(cat, pc, req, s);
    match Find(cat, s, req.planId, req.id, req.listed)
    case Err(_) =>
    case Ok(found) =>
      AloneUpdateFound(cat, pc, req, found, s);
      match DecidePlanChange(cat, pc, found, req.serviceId, req.newPlanId)
      case Err(_) =>
      case Ok(plan) =>
        match UpdateParams(s, found.instance.labels.serviceName, req.raw)
        case Err(_) =>
        case Ok(params) => AloneUpdateCall(cat, pc, req, found, plan, params, s);
  }

  lemma AloneDeleteCall(cat: Catalog, pc: Checker, req: Request, found: Found, s: State)
    requires req.DeprovisionRequest?
    ensures RunAlone(cat, pc, req, ReadyToDelete(found), s)
         == PerformDelete(s, PlanGvk(found.plan), found.instance.key.name)
  {
  }

  lemma AloneDeprovisionFound(cat: Catalog, pc: Checker, req: Request, found: Found, s: State)
    requires req.DeprovisionRequest?
    ensures RunAlone(cat, pc, req, AfterFound(cat, pc, req, found), s)
         == AfterInUseCheck(cat, pc, req, found, Deprovisionable(s, found.instance), s)
  {
    AfterFoundIsProper(cat, pc, req, found);
  }

  /** A Deprovision whose calls nothing comes between is the atomic Deprovision. */
  lemma AloneDeprovisionIsAtomic(cat: Catalog, pc: Checker, req: Request, s: State)
    requires req.DeprovisionRequest?
    ensures RunAlone(cat, pc, req, Start(cat, req), s)
         == var o := Deprovision(cat, s, req.id, req.planId, req.listed);
            Stepped(o.state, Done(AsAnswer(o.reply)))
  {
    AloneFind(cat, pc, req, s);
    match Find(cat, s, req.planId, req.id, req.listed)
    case Err(_) =>
    case Ok(found) =>
      AloneDeprovisionFound(cat, pc, req, found, s);
      AloneDeleteCall(cat, pc, req, found, s);
  }

  lemma AloneCreateCall(cat: Catalog, pc: Checker, req: Request, plan: Plan, params: Params, s: State)
    requires req.ProvisionRequest?
    ensures RunAlone(cat, pc, req, ReadyToCreate(req.id, plan, params, req.principal), s)
         == PerformCreate(s, PrepareCreate(req.id, plan, params, req.principal))
  {
  }

  lemma AloneAfterMiss(cat: Catalog, pc: Checker, req: Request, plan: Plan, s: State)
    requires req.ProvisionRequest?
    ensures Proper(req, AfterMiss(req, plan))
    ensures RunAlone(cat, pc, req, AfterMiss(req, plan), s)
         == AfterCreateValidation(cat, pc, req, plan, ProvisionParams(s, plan.labels.serviceName, req.raw), s)
  {
    LocalParamsMeaning(s, plan.labels.serviceName, req.raw);
  }

  /** The Provision function from where the instance is known to be missing. */
  lemma ProvisionFromMiss(cat: Catalog, pc: Checker, req: Request, plan: Plan, s: State)
    requires req.ProvisionRequest? && GetPlan(cat, req.planId) == Ok(plan) && Lookup(s, req.id, plan) == Ok(None)
    ensures var o := Provision(cat, s, req.id, req.planId, req.raw, req.principal);
            AfterCreateValidation(cat, pc, req, plan, ProvisionParams(s, plan.labels.serviceName, req.raw), s)
            == Stepped(o.state, Done(AsProvisionAnswer(o.reply)))
  {
    match ProvisionParams(s, plan.labels.serviceName, req.raw)
    case Err(_) =>
    case Ok(params) => AloneCreateCall(cat, pc, req, plan, params, s);
  }

  /** A Provision whose calls nothing comes between is the atomic Provision. */
  lemma AloneProvisionIsAtomic(cat: Catalog, pc: Checker, req: Request, s: State)
    requires req.ProvisionRequest?
    ensures RunAlone(cat, pc, req, Start(cat, req), s)
         == var o := Provision(cat, s, req.id, req.planId, req.raw, req.principal);
            Stepped(o.state, Done(AsProvisionAnswer(o.reply)))
  {
    match GetPlan(cat, req.planId)
    case Err(_) =>
    case Ok(plan) =>
      if Lookup(s, req.id, plan) == Ok(None) {
        AloneAfterMiss(cat, pc, req, plan, s);
        ProvisionFromMiss(cat, pc, req, plan, s);
      }
  }
}
