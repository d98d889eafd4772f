/** What a request that runs among others, and whose calls may fail, may be believed when it answers. */
module Replies {
  import opened Types
  import opened Metadata
  import opened PlanPolicy
  import opened Store
  import opened Catalog
  import opened Requests
  import opened Instances
  import opened Interleaving
  import opened Concurrency
  import SerialRuns
  import Bindings

  // ---------------------------------------------------------------- Failed calls

  /** A call that fails is answered as failed: lost on the way, it has changed nothing; with its reply lost, it has
      changed what it would have changed. */
  lemma FaultsAreReported(cat: Catalog, pc: Checker, req: Request, point: Point, s: State, fault: Fault)
    requires Proper(req, point) && !point.Done? && !fault.NoFault?
    ensures Step(cat, pc, req, point, s, fault).point == Done(Err(CallFailed))
    ensures Step(cat, pc, req, point, s, fault).state
         == if fault.LostReply? then Step(cat, pc, req, point, s, NoFault).state else s
  {
  }

  /** The same for the calls of a Bind. */
  lemma BindFaultsAreReported(s: State, b: Bindings.Binder, fault: Fault)
    requires !b.point.BindDone? && !fault.NoFault?
    ensures Bindings.BindStep(s, b, fault).binder.point == Bindings.BindDone(Err(CallFailed))
    ensures Bindings.BindStep(s, b, fault).state
         == if fault.LostReply? then Bindings.BindStep(s, b, NoFault).state else s
  {
  }

  /** The same for the calls of an Unbind. */
  lemma UnbindFaultsAreReported(s: State, id: string, point: Bindings.UnbindPoint, fault: Fault)
    requires !point.UnbindDone? && !fault.NoFault?
    ensures Bindings.UnbindStep(s, id, point, fault).point == Bindings.UnbindDone(Err(CallFailed))
    ensures Bindings.UnbindStep(s, id, point, fault).state
         == if fault.LostReply? then Bindings.UnbindStep(s, id, point, NoFault).state else s
  {
  }

  // ---------------------------------------------------------------- A request acts on the instance it names

  /** What the request is about to write or remove has the request's id. */
  predicate Addressed(req: Request, point: Point)
  {
    match point
    case CallCreate(w) => w.key.name == req.id
    case GetParentForUpdate(_, found, _, _) => found.instance.key.name == req.id
    case CallUpdate(found, _, _) => found.instance.key.name == req.id
    case ListDatabases(found) => found.instance.key.name == req.id
    case CallDelete(key) => key.name == req.id
    case _ => true
  }

  lemma CreateAddressed(req: Request, plan: Plan, params: Params)
    requires req.ProvisionRequest?
    ensures Addressed(req, ReadyToCreate(req.id, plan, params, req.principal))
  {
  }

  lemma AfterMissAddressed(req: Request, plan: Plan)
    requires req.ProvisionRequest?
    ensures Addressed(req, AfterMiss(req, plan))
  {
    CreateAddressed(req, plan, map[]);
    match LocalParams(plan.labels.serviceName, req.raw)
    case Ok(Ready(params)) => CreateAddressed(req, plan, params);
    case _ =>
  }

  lemma PlanChangeAddressed(req: Request, found: Found, plan: Plan)
    requires req.UpdateRequest? && found.instance.key.name == req.id
    ensures Addressed(req, AfterPlanChange(req, found, plan))
  {
  }

  lemma FoundAddressed(cat: Catalog, pc: Checker, req: Request, found: Found)
    requires !req.ProvisionRequest? && found.instance.key.name == req.id
    ensures Addressed(req, AfterFound(cat, pc, req, found))
  {
    if req.UpdateRequest? && DecidePlanChange(cat, pc, found, req.serviceId, req.newPlanId).Ok? {
      PlanChangeAddressed(req, found, DecidePlanChange(cat, pc, found, req.serviceId, req.newPlanId).value);
    }
  }

  lemma SearchAddressed(cat: Catalog, pc: Checker, req: Request, plans: seq<Plan>, s: State)
    requires !req.ProvisionRequest? && plans != []
    ensures Addressed(req, ReadStep(cat, pc, req, SearchPlans(plans), s))
  {
    var r := Lookup(s, req.id, plans[0]);
    LookupMeaning(s, req.id, plans[0]);
    if r.Ok? && r.value.Some? {
      FoundAddressed(cat, pc, req, Found(plans[0], r.value.value));
    }
  }

  lemma ReadAddressed(cat: Catalog, pc: Checker, req: Request, point: Point, s: State)
    requires Proper(req, point) && Addressed(req, point)
    requires !point.CallCreate? && !point.CallUpdate? && !point.CallDelete?
    ensures Addressed(req, ReadStep(cat, pc, req, point, s))
  {
    match point
    case GetInstanceFor(plan) => AfterMissAddressed(req, plan);
    case GetParentForCreate(_, plan, params) => CreateAddressed(req, plan, params);
    case SearchPlans(plans) => SearchAddressed(cat, pc, req, plans, s);
    case _ =>
  }

  lemma StepAddressed(cat: Catalog, pc: Checker, req: Request, point: Point, s: State, fault: Fault)
    requires Proper(req, point) && Addressed(req, point)
    ensures Addressed(req, Step(cat, pc, req, point, s, fault).point)
  {
    if !point.CallCreate? && !point.CallUpdate? && !point.CallDelete? {
      ReadAddressed(cat, pc, req, point, s);
    }
  }

  ghost predicate AllAddressed(c: Config)
  {
    forall t :: t in c.threads ==> Addressed(c.threads[t].request, c.threads[t].point)
  }

  lemma NextAddressed(cat: Catalog, pc: Checker, c: Config, mv: Move, c': Config)
    requires AllAddressed(c) && Next(cat, pc, c, mv, c')
    ensures AllAddressed(c')
  {
    if mv.Advance? {
      StepAddressed(cat, pc, c.threads[mv.tid].request, c.threads[mv.tid].point, c.store, mv.fault);
    }
  }

  lemma {:induction false} RunIsAddressed(cat: Catalog, pc: Checker, trace: seq<Config>, moves: seq<Move>, i: nat)
    requires IsRun(cat, pc, trace, moves) && InitialConfig(trace[0]) && i < |trace|
    ensures AllAddressed(trace[i])
  {
    if i > 0 {
      RunIsAddressed(cat, pc, trace, moves, i - 1);
      assert StepAt(cat, pc, trace, moves, i - 1);
      NextAddressed(cat, pc, trace[i - 1], moves[i - 1], trace[i]);
    }
  }

  // ---------------------------------------------------------------- What an answer says about the store

  /** What the request's success means: the instance has been added, rewritten or removed, and nothing else. */
  ghost predicate Happened(req: Request, s: State, s': State)
  {
    match req
    case ProvisionRequest(id, _, _, _) => SerialRuns.Adds(s, s', id)
    case UpdateRequest(id, _, _, _, _, _) => SerialRuns.Rewrites(s, s', id) && s' != s
    case DeprovisionRequest(id, _, _) => SerialRuns.Removes(s, s', id)
  }

  /** The requested instance is stored, with the requested plan's name. */
  ghost predicate IsThere(cat: Catalog, req: Request, s: State)
  {
    req.ProvisionRequest? && req.raw.Absent?
    && exists key: Key ::
         key.name == req.id && key in s.composites && GetPlan(cat, req.planId).Ok?
         && PlanGvk(GetPlan(cat, req.planId).value) == Ok(key.gvk)
         && Text(s.composites[key].labels, PlanNameLabel) == GetPlan(cat, req.planId).value.labels.planName
  }

  lemma PutHappens(req: Request, s: State, key: Key, c: Composite)
    requires key.name == req.id
    ensures key !in s.composites ==> SerialRuns.Adds(s, Put(s, key, c), req.id)
    ensures key in s.composites ==> SerialRuns.Rewrites(s, Put(s, key, c), req.id) && Put(s, key, c) != s
  {
    SerialRuns.PutIsOnlyAt(s, key, c);
    assert Put(s, key, c).clock != s.clock;
  }

  lemma DeleteHappens(req: Request, s: State, key: Key)
    requires key.name == req.id && key in s.composites
    ensures SerialRuns.Removes(s, Delete(s, key).value, req.id)
  {
    assert SerialRuns.OnlyAt(s, Delete(s, key).value, key);
  }

  lemma ReadAnswers(cat: Catalog, pc: Checker, req: Request, point: Point, s: State)
    requires Proper(req, point) && !point.CallCreate? && !point.CallUpdate? && !point.CallDelete? && !point.Done?
    ensures ReadStep(cat, pc, req, point, s) != Done(Ok(Changed))
    ensures ReadStep(cat, pc, req, point, s) == Done(Ok(Already)) ==>
              point.GetInstanceFor? && req.raw.Absent?
              && Lookup(s, req.id, point.plan).Ok? && Lookup(s, req.id, point.plan).value.Some?
  {
  }

  /** A request that answers that it has changed something has done so in that very step. */
  lemma ChangedIsTrue(cat: Catalog, pc: Checker, req: Request, point: Point, s: State, fault: Fault)
    requires Proper(req, point) && Addressed(req, point) && !point.Done?
    requires Step(cat, pc, req, point, s, fault).point == Done(Ok(Changed))
    ensures fault.NoFault? && Happened(req, s, Step(cat, pc, req, point, s, fault).state)
  {
    match point
    case CallCreate(w) => PutHappens(req, s, w.key, w.composite);
    case CallUpdate(found, plan, params) =>
      var w := UpdateWrite(found, plan, params);
      PutHappens(req, s, w.key, w.composite);
    case CallDelete(key) => if key in s.composites { DeleteHappens(req, s, key); }
    case _ => ReadAnswers(cat, pc, req, point, s);
  }

  /** A request that answers otherwise, its last call not having failed, changes nothing in that step. */
  lemma OtherAnswersChangeNothing(cat: Catalog, pc: Checker, req: Request, point: Point, s: State)
    requires Proper(req, point) && Step(cat, pc, req, point, s, NoFault).point != Done(Ok(Changed))
    ensures Step(cat, pc, req, point, s, NoFault).state == s
  {
  }

  lemma AlreadyIsTrue(cat: Catalog, pc: Checker, req: Request, point: Point, s: State, fault: Fault)
    requires Proper(req, point) && !point.Done? && Planned(cat, Thread(req, point))
    requires Step(cat, pc, req, point, s, fault).point == Done(Ok(Already))
    ensures fault.NoFault? && IsThere(cat, req, s) && Step(cat, pc, req, point, s, fault).state == s
  {
    if !point.CallCreate? && !point.CallUpdate? && !point.CallDelete? {
      ReadAnswers(cat, pc, req, point, s);
      LookupMeaning(s, req.id, point.plan);
      assert Key(PlanGvk(point.plan).value, req.id) in s.composites;
    }
  }

  /** A Provision starts with its plan. */
  predicate Planned(cat: Catalog, t: Thread)
  {
    t.point.GetInstanceFor? ==> GetPlan(cat, t.request.planId) == Ok(t.point.plan)
  }

  lemma NeverBackToStart(cat: Catalog, pc: Checker, req: Request, point: Point, s: State, fault: Fault)
    requires Proper(req, point)
    ensures !Step(cat, pc, req, point, s, fault).point.GetInstanceFor?
  {
    if !point.Done? {
      StepDecreases(cat, pc, req, point, s, fault);
    }
  }

  lemma {:induction false} RunIsPlanned(cat: Catalog, pc: Checker, trace: seq<Config>, moves: seq<Move>, i: nat, t: nat)
    requires IsRun(cat, pc, trace, moves) && InitialConfig(trace[0]) && i < |trace| && t in trace[i].threads
    ensures Planned(cat, trace[i].threads[t])
  {
    if i > 0 {
      assert StepAt(cat, pc, trace, moves, i - 1);
      var c, mv := trace[i - 1], moves[i - 1];
      if t in c.threads {
        RunIsPlanned(cat, pc, trace, moves, i - 1, t);
        if mv.Advance? && mv.tid == t {
          NeverBackToStart(cat, pc, c.threads[t].request, c.threads[t].point, c.store, mv.fault);
        }
      }
    }
  }

  /** In every interleaving, with calls failing: a request that answers `Changed` has in that step added, rewritten
      or removed the instance it names, and nothing else; a Provision that answers `Already` has seen the
      instance, and changes nothing; and a request that answers with an error, its last call not having failed,
      changes nothing in that step. */
  lemma AnswersAreTrue(cat: Catalog, pc: Checker, trace: seq<Config>, moves: seq<Move>, i: nat)
    requires IsRun(cat, pc, trace, moves) && InitialConfig(trace[0]) && i < |moves|
    requires moves[i].Advance? && moves[i].tid in trace[i].threads && moves[i].tid in trace[i + 1].threads
    requires !trace[i].threads[moves[i].tid].point.Done? && trace[i + 1].threads[moves[i].tid].point.Done?
    ensures var req := trace[i].threads[moves[i].tid].request;
            match trace[i + 1].threads[moves[i].tid].point.answer
            case Ok(Changed) => moves[i].fault.NoFault? && Happened(req, trace[i].store, trace[i + 1].store)
            case Ok(Already) => IsThere(cat, req, trace[i].store) && trace[i + 1].store == trace[i].store
            case Err(e) =>
              if moves[i].fault.NoFault? || moves[i].fault.LostRequest? then trace[i + 1].store == trace[i].store
              else e == CallFailed
  {
    RunIsAddressed(cat, pc, trace, moves, i);
    RunIsPlanned(cat, pc, trace, moves, i, moves[i].tid);
    assert StepAt(cat, pc, trace, moves, i);
    var t := trace[i].threads[moves[i].tid];
    StepAnswers(cat, pc, t.request, t.point, trace[i].store, moves[i].fault);
  }

  lemma StepAnswers(cat: Catalog, pc: Checker, req: Request, point: Point, s: State, fault: Fault)
    requires Proper(req, point) && Addressed(req, point) && !point.Done? && Planned(cat, Thread(req, point))
    requires Step(cat, pc, req, point, s, fault).point.Done?
    ensures var st := Step(cat, pc, req, point, s, fault);
            match st.point.answer
            case Ok(Changed) => fault.NoFault? && Happened(req, s, st.state)
            case Ok(Already) => IsThere(cat, req, s) && st.state == s
            case Err(e) => if fault.NoFault? || fault.LostRequest? then st.state == s else e == CallFailed
  {
    if !fault.NoFault? {
      FaultsAreReported(cat, pc, req, point, s, fault);
    } else {
      match Step(cat, pc, req, point, s, fault).point.answer
      case Ok(Changed) => ChangedIsTrue(cat, pc, req, point, s, fault);
      case Ok(Already) => AlreadyIsTrue(cat, pc, req, point, s, fault);
      case Err(_) => OtherAnswersChangeNothing(cat, pc, req, point, s);
    }
  }

  // ---------------------------------------------------------------- Bind and Unbind

  /** An Unbind that answers that it is done has in that step marked the composite for deletion, and changed
      nothing else. */
  lemma UnboundIsTrue(s: State, id: string, point: Bindings.UnbindPoint, fault: Fault)
    requires !point.UnbindDone? && Bindings.UnbindStep(s, id, point, fault).point == Bindings.UnbindDone(Ok(()))
    ensures fault.NoFault? && point.DeleteUserComposite? && UserKey(id) in s.composites
    ensures var s' := Bindings.UnbindStep(s, id, point, fault).state;
            && SerialRuns.OnlyAt(s, s', UserKey(id)) && UserKey(id) in s'.composites
            && s'.composites[UserKey(id)] == s.composites[UserKey(id)].(deleting := true, version := s.clock)
  {
  }

  /** A Bind that answers with credentials has in that step only read: the labelled cluster, with its label. The
      rest is the endpoint read before, and what the Bind has worked with from the start. */
  lemma BoundIsTrue(s: State, b: Bindings.Binder, fault: Fault)
    requires !b.point.BindDone?
    requires var p := Bindings.BindStep(s, b, fault).binder.point; p.BindDone? && p.credentials.Ok?
    ensures fault.NoFault? && b.point.GetLabelParent? && Bindings.BindStep(s, b, fault).state == s
    ensures var c := Bindings.BindStep(s, b, fault).binder.point.credentials.value;
            var parent := Key(SynTools(MariaDBKind), b.instance.labels.parentId);
            && c.host == b.point.endpoint.host && c.port == b.point.endpoint.port
            && c.username == b.bindingId && c.password == b.password
            && c.database == b.instance.key.name && c.parent == b.instance.labels.parentId
            && parent in s.composites && c.cluster == Text(s.composites[parent].labels, ClusterLabel)
  {
  }
}
