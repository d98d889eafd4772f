/** Any number of Provision, Update and Deprovision requests at once: no decision made on a stale plan ever
    commits, and plans move only along the configured rules. */
module Concurrency {
  import opened Types
  import opened Metadata
  import opened PlanPolicy
  import opened Store
  import opened Catalog
  import opened Requests
  import opened Instances
  import opened Interleaving

  datatype Thread = Thread(request: Request, point: Point)

  datatype Config = Config(store: State, threads: map<nat, Thread>)

  /** The controller rewrites readiness, references and connection of composites, except that the references
      of user composites are the business of bindings. */
  datatype Move =
    | Spawn(tid: nat, request: Request)
    | Advance(tid: nat, fault: Fault)
    | Controller(key: Key, ready: bool, refs: seq<ResourceRef>, connection: Option<SecretName>)
    | Bindings(after: State)

  /** Bindings and the garbage collector may do anything to secrets, users and user composites. */
  ghost predicate BindingChange(s: State, s': State)
  {
    && s.clock <= s'.clock && s.strict == s'.strict && VersionsOk(s')
    && (forall k: Key :: k.gvk != SynTools(UserKind) ==>
          (k in s.composites <==> k in s'.composites) && (k in s.composites ==> s.composites[k] == s'.composites[k]))
    && (forall k: Key :: k.gvk == SynTools(UserKind) && k in s'.composites ==>
          (k in s.composites && s.composites[k] == s'.composites[k]) || s'.composites[k].version >= s.clock)
  }

  ghost predicate ListsTruthfully(cat: Catalog, req: Request)
  {
    req.ProvisionRequest? || Listing(cat, req.listed)
  }

  ghost predicate Next(cat: Catalog, pc: Checker, c: Config, mv: Move, c': Config)
  {
    match mv
    case Spawn(tid, req) =>
      tid !in c.threads && ListsTruthfully(cat, req)
      && c' == c.(threads := c.threads[tid := Thread(req, Start(cat, req))])
    case Advance(tid, fault) =>
      && tid in c.threads
      && Proper(c.threads[tid].request, c.threads[tid].point)
      && var st := Step(cat, pc, c.threads[tid].request, c.threads[tid].point, c.store, fault);
         c' == Config(st.state, c.threads[tid := c.threads[tid].(point := st.point)])
    case Controller(key, ready, refs, connection) =>
      && (key.gvk == SynTools(UserKind) && key in c.store.composites ==> refs == c.store.composites[key].refs)
      && c' == c.(store := ControllerWrite(c.store, key, ready, refs, connection))
    case Bindings(s') => BindingChange(c.store, s') && c' == c.(store := s')
  }

  // ---------------------------------------------------------------- Snapshots

  /** What a request has fetched is what the store holds, as long as the version is still the same. */
  ghost predicate SnapshotOk(s: State, key: Key, c: Composite)
  {
    && c.version < s.clock
    && forall k :: k in s.composites && s.composites[k].version == c.version ==> k == key && s.composites[k] == c
  }

  /** Every object in the later store is an object of the earlier one, unchanged, or newer than it. */
  ghost predicate OnlyNewer(s: State, s': State)
  {
    && s.clock <= s'.clock
    && forall k :: k in s'.composites ==>
         (k in s.composites && s.composites[k] == s'.composites[k]) || s'.composites[k].version >= s.clock
  }

  lemma SnapshotsSurvive(s: State, s': State, key: Key, c: Composite)
    requires SnapshotOk(s, key, c) && OnlyNewer(s, s')
    ensures SnapshotOk(s', key, c)
  {
  }

  lemma FetchedIsSnapshot(s: State, key: Key)
    requires VersionsOk(s) && key in s.composites
    ensures SnapshotOk(s, key, s.composites[key])
  {
  }

  // ---------------------------------------------------------------- The invariant

  ghost predicate FromCatalog(cat: Catalog, plan: Plan)
  {
    GetPlan(cat, plan.name) == Ok(plan)
  }

  /** The plan was found for the instance, and the instance is a snapshot. */
  ghost predicate FoundOk(cat: Catalog, s: State, found: Found)
  {
    && FromCatalog(cat, found.plan)
    && PlanGvk(found.plan) == Ok(found.instance.key.gvk)
    && SnapshotOk(s, found.instance.key, found.instance.composite)
    && ParseLabels(found.instance.composite.labels) == Ok(found.instance.labels)
    && found.instance.labels.planName == found.plan.labels.planName
  }

  ghost predicate PointOk(cat: Catalog, pc: Checker, s: State, point: Point)
  {
    match point
    case Done(_) => true
    case GetInstanceFor(plan) => FromCatalog(cat, plan)
    case GetParentForCreate(_, plan, _) => FromCatalog(cat, plan)
    case CallCreate(w) => FreshInstance(cat, w) && InstanceGvk(w.key.gvk)
    case SearchPlans(plans) => forall p :: p in plans ==> FromCatalog(cat, p)
    case GetParentForUpdate(_, found, plan, _) =>
      FoundOk(cat, s, found) && FromCatalog(cat, plan) && AllowUpdate(pc, found.plan.labels, plan.labels)
    case CallUpdate(found, plan, _) =>
      FoundOk(cat, s, found) && FromCatalog(cat, plan) && AllowUpdate(pc, found.plan.labels, plan.labels)
    case ListDatabases(found) => FromCatalog(cat, found.plan)
    case CallDelete(key) => InstanceGvk(key.gvk)
  }

  ghost predicate Inv(cat: Catalog, pc: Checker, c: Config)
  {
    && InstancesOk(cat, c.store)
    && VersionsOk(c.store)
    && forall t :: t in c.threads ==>
                     Proper(c.threads[t].request, c.threads[t].point) && PointOk(cat, pc, c.store, c.threads[t].point)
                                      && ListsTruthfully(cat, c.threads[t].request)
  }

  lemma PointsSurvive(cat: Catalog, pc: Checker, s: State, s': State, point: Point)
    requires PointOk(cat, pc, s, point) && OnlyNewer(s, s')
    ensures PointOk(cat, pc, s', point)
  {
    match point
    case GetParentForUpdate(_, found, _, _) => SnapshotsSurvive(s, s', found.instance.key, found.instance.composite);
    case CallUpdate(found, _, _) => SnapshotsSurvive(s, s', found.instance.key, found.instance.composite);
    case _ =>
  }

  // ---------------------------------------------------------------- Points reached by reading

  lemma StartOk(cat: Catalog, pc: Checker, s: State, req: Request)
    requires ListsTruthfully(cat, req)
    ensures PointOk(cat, pc, s, Start(cat, req))
  {
    if !req.ProvisionRequest? && req.planId == "" {
      PlansMeaning(cat, req.listed);
    }
  }

  lemma PlanGvkIsInstanceGvk(cat: Catalog, plan: Plan)
    requires WellFormed(cat) && FromCatalog(cat, plan)
    ensures PlanGvk(plan).Ok? && InstanceGvk(PlanGvk(plan).value)
  {
    assert PlanBuildsService(plan);
  }

  lemma ReadyToCreateOk(cat: Catalog, pc: Checker, s: State, id: string, plan: Plan, params: Params,
                        principal: Result<string>)
    requires WellFormed(cat) && FromCatalog(cat, plan)
    ensures PointOk(cat, pc, s, ReadyToCreate(id, plan, params, principal))
  {
    PlanGvkIsInstanceGvk(cat, plan);
    match PrepareCreate(id, plan, params, principal)
    case Err(_) =>
    case Ok(w) => assert PrepareCreate(w.key.name, plan, params, principal) == Ok(w);
  }

  lemma AfterMissOk(cat: Catalog, pc: Checker, s: State, req: Request, plan: Plan)
    requires WellFormed(cat) && FromCatalog(cat, plan) && req.ProvisionRequest?
    ensures PointOk(cat, pc, s, AfterMiss(req, plan))
  {
    ReadyToCreateOk(cat, pc, s, req.id, plan, map[], req.principal);
    match LocalParams(plan.labels.serviceName, req.raw)
    case Ok(Ready(params)) => ReadyToCreateOk(cat, pc, s, req.id, plan, params, req.principal);
    case _ =>
  }

  lemma DecidedPlanOk(cat: Catalog, pc: Checker, found: Found, serviceId: string, newPlanId: string)
    requires DecidePlanChange(cat, pc, found, serviceId, newPlanId).Ok?
    ensures var plan := DecidePlanChange(cat, pc, found, serviceId, newPlanId).value;
            FromCatalog(cat, plan) && AllowUpdate(pc, found.plan.labels, plan.labels)
  {
  }

  lemma AfterPlanChangeOk(cat: Catalog, pc: Checker, s: State, req: Request, found: Found, plan: Plan)
    requires FoundOk(cat, s, found) && FromCatalog(cat, plan) && AllowUpdate(pc, found.plan.labels, plan.labels)
    requires req.UpdateRequest?
    ensures PointOk(cat, pc, s, AfterPlanChange(req, found, plan))
  {
  }

  lemma AfterFoundForUpdateOk(cat: Catalog, pc: Checker, s: State, req: Request, found: Found)
    requires FoundOk(cat, s, found) && req.UpdateRequest?
    ensures PointOk(cat, pc, s, AfterFoundForUpdate(cat, pc, req, found))
  {
    match DecidePlanChange(cat, pc, found, req.serviceId, req.newPlanId)
    case Err(_) =>
    case Ok(plan) =>
      DecidedPlanOk(cat, pc, found, req.serviceId, req.newPlanId);
      AfterPlanChangeOk(cat, pc, s, req, found, plan);
  }

  lemma AfterFoundForDeprovisionOk(cat: Catalog, pc: Checker, s: State, found: Found)
    requires WellFormed(cat) && FromCatalog(cat, found.plan)
    ensures PointOk(cat, pc, s, AfterFoundForDeprovision(found))
  {
    PlanGvkIsInstanceGvk(cat, found.plan);
  }

  lemma SearchStepOk(cat: Catalog, pc: Checker, s: State, req: Request, plans: seq<Plan>)
    requires WellFormed(cat) && VersionsOk(s) && !req.ProvisionRequest? && plans != []
    requires forall p :: p in plans ==> FromCatalog(cat, p)
    ensures PointOk(cat, pc, s, ReadStep(cat, pc, req, SearchPlans(plans), s))
  {
    var r := Lookup(s, req.id, plans[0]);
    LookupMeaning(s, req.id, plans[0]);
    if r.Ok? && r.value.Some? {
      FetchedIsSnapshot(s, r.value.value.key);
      if req.UpdateRequest? {
        AfterFoundForUpdateOk(cat, pc, s, req, Found(plans[0], r.value.value));
      } else {
        AfterFoundForDeprovisionOk(cat, pc, s, Found(plans[0], r.value.value));
      }
    }
  }

  lemma ReadStepOk(cat: Catalog, pc: Checker, s: State, req: Request, point: Point)
    requires WellFormed(cat) && VersionsOk(s) && Proper(req, point) && PointOk(cat, pc, s, point)
    requires !point.CallCreate? && !point.CallUpdate? && !point.CallDelete?
    ensures PointOk(cat, pc, s, ReadStep(cat, pc, req, point, s))
  {
    match point
    case GetInstanceFor(plan) => AfterMissOk(cat, pc, s, req, plan);
    case GetParentForCreate(_, plan, params) => ReadyToCreateOk(cat, pc, s, req.id, plan, params, req.principal);
    case SearchPlans(plans) => SearchStepOk(cat, pc, s, req, plans);
    case ListDatabases(found) => PlanGvkIsInstanceGvk(cat, found.plan);
    case _ =>
  }

  // ---------------------------------------------------------------- Committing

  /** A write that commits found the store holding the very snapshot the request had decided on: the plan
      checked by the rules is the plan stored at the moment of the commit. */
  lemma CommitIsFresh(cat: Catalog, pc: Checker, s: State, found: Found, plan: Plan, params: Params)
    requires PointOk(cat, pc, s, CallUpdate(found, plan, params)) && PlanGvk(plan).Ok?
    requires var w := UpdateWrite(found, plan, params); Store.Update(s, w.key, w.composite).Ok?
    ensures var key := found.instance.key;
            && UpdateWrite(found, plan, params).key == key
            && key in s.composites && s.composites[key] == found.instance.composite
  {
  }

  lemma CommitExplained(cat: Catalog, pc: Checker, s: State, found: Found, plan: Plan, params: Params)
    returns (e: Effect)
    requires WellFormed(cat) && InstancesOk(cat, s) && VersionsOk(s)
    requires PointOk(cat, pc, s, CallUpdate(found, plan, params)) && PlanGvk(plan).Ok?
    requires var w := UpdateWrite(found, plan, params); Store.Update(s, w.key, w.composite).Ok?
    ensures var w := UpdateWrite(found, plan, params);
            Explains(cat, pc, e, s, Store.Update(s, w.key, w.composite).value)
    ensures e == PlanChanged(found.instance.key)
  {
    CommitIsFresh(cat, pc, s, found, plan, params);
    PlanGvkIsInstanceGvk(cat, found.plan);
    UpdateExplained(cat, pc, s, found.instance.key, found.instance.composite, found.plan, plan, params);
    e := PlanChanged(found.instance.key);
  }

  lemma UntouchedExplained(cat: Catalog, pc: Checker, s: State)
    ensures Explains(cat, pc, Untouched, s, s)
  {
  }

  lemma WriteCallExplained(cat: Catalog, pc: Checker, s: State, r: Result<State>, fault: Fault, e: Effect)
    returns (e': Effect)
    requires r.Ok? ==> Explains(cat, pc, e, s, r.value) && OnlyNewer(s, r.value) && VersionsOk(r.value)
    requires VersionsOk(s)
    ensures var st := WriteCall(s, r, fault);
            Explains(cat, pc, e', s, st.state) && OnlyNewer(s, st.state) && VersionsOk(st.state) && st.point.Done?
  {
    UntouchedExplained(cat, pc, s);
    e' := if r.Err? || fault.LostRequest? then Untouched else e;
  }

  lemma CreateStepOk(cat: Catalog, pc: Checker, s: State, w: Write, fault: Fault) returns (e: Effect)
    requires VersionsOk(s) && PointOk(cat, pc, s, CallCreate(w))
    ensures var st := WriteCall(s, Create(s, w.key, w.composite), fault);
            Explains(cat, pc, e, s, st.state) && OnlyNewer(s, st.state) && VersionsOk(st.state) && st.point.Done?
  {
    if Create(s, w.key, w.composite).Ok? {
      CreateExplained(cat, pc, s, w);
      PutKeepsVersions(s, w.key, w.composite);
    }
    e := WriteCallExplained(cat, pc, s, Create(s, w.key, w.composite), fault, Created(w.key));
  }

  lemma PutIsNewer(s: State, key: Key, c: Composite)
    requires VersionsOk(s)
    ensures OnlyNewer(s, Put(s, key, c)) && VersionsOk(Put(s, key, c))
  {
    PutKeepsVersions(s, key, c);
  }

  lemma UpdateStepOk(cat: Catalog, pc: Checker, s: State, found: Found, plan: Plan, params: Params, fault: Fault)
    returns (e: Effect)
    requires WellFormed(cat) && InstancesOk(cat, s) && VersionsOk(s)
    requires PointOk(cat, pc, s, CallUpdate(found, plan, params)) && PlanGvk(plan).Ok?
    ensures var w := UpdateWrite(found, plan, params);
            var st := WriteCall(s, Store.Update(s, w.key, w.composite), fault);
            Explains(cat, pc, e, s, st.state) && OnlyNewer(s, st.state) && VersionsOk(st.state) && st.point.Done?
  {
    var w := UpdateWrite(found, plan, params);
    e := Untouched;
    if Store.Update(s, w.key, w.composite).Ok? {
      e := CommitExplained(cat, pc, s, found, plan, params);
      PutIsNewer(s, w.key, w.composite);
      assert Store.Update(s, w.key, w.composite).value == Put(s, w.key, w.composite);
    }
    e := WriteCallExplained(cat, pc, s, Store.Update(s, w.key, w.composite), fault, e);
  }

  lemma DeleteStepOk(cat: Catalog, pc: Checker, s: State, key: Key, fault: Fault) returns (e: Effect)
    requires VersionsOk(s)
    ensures var st := WriteCall(s, Delete(s, key), fault);
            Explains(cat, pc, e, s, st.state) && OnlyNewer(s, st.state) && VersionsOk(st.state) && st.point.Done?
  {
    if Delete(s, key).Ok? {
      DeleteExplained(cat, pc, s, key);
    }
    e := WriteCallExplained(cat, pc, s, Delete(s, key), fault, Removed(key));
  }

  /** Every step of a request, with whatever fault, has an explained effect and leads to a good point. */
  lemma StepOk(cat: Catalog, pc: Checker, s: State, req: Request, point: Point, fault: Fault) returns (e: Effect)
    requires WellFormed(cat) && InstancesOk(cat, s) && VersionsOk(s) && Proper(req, point) && PointOk(cat, pc, s, point)
    ensures var st := Step(cat, pc, req, point, s, fault);
            && Explains(cat, pc, e, s, st.state) && OnlyNewer(s, st.state) && VersionsOk(st.state)
            && PointOk(cat, pc, st.state, st.point)
  {
    match point
    case CallCreate(w) => e := CreateStepOk(cat, pc, s, w, fault);
    case CallUpdate(found, plan, params) => e := UpdateStepOk(cat, pc, s, found, plan, params, fault);
    case CallDelete(key) => e := DeleteStepOk(cat, pc, s, key, fault);
    case _ =>
      e := Untouched;
      UntouchedExplained(cat, pc, s);
      ReadStepOk(cat, pc, s, req, point);
  }

  // ---------------------------------------------------------------- Moves

  lemma StoreMoveKeepsInv(cat: Catalog, pc: Checker, c: Config, s': State, e: Effect)
    requires Inv(cat, pc, c)
    requires Explains(cat, pc, e, c.store, s') && OnlyNewer(c.store, s') && VersionsOk(s')
    ensures Inv(cat, pc, c.(store := s'))
  {
    ExplainedKeepsInstances(cat, pc, e, c.store, s');
    forall t | t in c.threads ensures PointOk(cat, pc, s', c.threads[t].point) {
      PointsSurvive(cat, pc, c.store, s', c.threads[t].point);
    }
  }

  lemma ControllerExplained(cat: Catalog, pc: Checker, s: State, key: Key, ready: bool, refs: seq<ResourceRef>,
                            connection: Option<SecretName>) returns (e: Effect)
    requires VersionsOk(s)
    ensures var s' := ControllerWrite(s, key, ready, refs, connection);
            Explains(cat, pc, e, s, s') && OnlyNewer(s, s') && VersionsOk(s')
  {
    if key in s.composites {
      PutKeepsVersions(s, key, s.composites[key].(ready := ready, refs := refs, connection := connection));
      e := StatusChanged(key);
    } else {
      e := Untouched;
    }
  }

  lemma BindingChangeExplained(cat: Catalog, pc: Checker, s: State, s': State)
    requires BindingChange(s, s')
    ensures Explains(cat, pc, Untouched, s, s') && OnlyNewer(s, s')
  {
  }

  /** In every interleaving, each step keeps the invariant and has an explained effect: in particular a step
      that changes an instance's plan takes it from the plan stored immediately before the step to a plan
      that the update check accepts from there. */
  lemma NextOk(cat: Catalog, pc: Checker, c: Config, mv: Move, c': Config) returns (e: Effect)
    requires WellFormed(cat) && Inv(cat, pc, c) && Next(cat, pc, c, mv, c')
    ensures Inv(cat, pc, c')
    ensures Explains(cat, pc, e, c.store, c'.store)
  {
    match mv
    case Spawn(tid, req) =>
      e := Untouched;
      StartOk(cat, pc, c.store, req);
      StartIsProper(cat, req);
    case Advance(tid, fault) =>
      var t := c.threads[tid];
      e := StepOk(cat, pc, c.store, t.request, t.point, fault);
      StepIsProper(cat, pc, t.request, t.point, c.store, fault);
      var st := Step(cat, pc, t.request, t.point, c.store, fault);
      StoreMoveKeepsInv(cat, pc, c, st.state, e);
    case Controller(key, ready, refs, connection) =>
      e := ControllerExplained(cat, pc, c.store, key, ready, refs, connection);
      StoreMoveKeepsInv(cat, pc, c, c'.store, e);
    case Bindings(s') =>
      BindingChangeExplained(cat, pc, c.store, s');
      e := Untouched;
      StoreMoveKeepsInv(cat, pc, c, s', e);
  }

  // ---------------------------------------------------------------- Runs

  /** A step of a trace, kept apart so that runs are unfolded one step at a time. */
  ghost predicate StepAt(cat: Catalog, pc: Checker, trace: seq<Config>, moves: seq<Move>, i: nat)
    requires |trace| == |moves| + 1 && i < |moves|
  {
    Next(cat, pc, trace[i], moves[i], trace[i + 1])
  }

  ghost predicate IsRun(cat: Catalog, pc: Checker, trace: seq<Config>, moves: seq<Move>)
  {
    && |trace| == |moves| + 1
    && forall i :: 0 <= i < |moves| ==> StepAt(cat, pc, trace, moves, i)
  }

  /** Before the first request there are no instances. */
  ghost predicate InitialConfig(c: Config)
  {
    c.threads == map[] && VersionsOk(c.store) && forall k :: k in c.store.composites ==> !InstanceGvk(k.gvk)
  }

  lemma InitialConfigInv(cat: Catalog, pc: Checker, c: Config)
    requires InitialConfig(c)
    ensures Inv(cat, pc, c)
  {
  }

  lemma {:induction false} RunInv(cat: Catalog, pc: Checker, trace: seq<Config>, moves: seq<Move>, i: nat)
    requires WellFormed(cat) && IsRun(cat, pc, trace, moves) && Inv(cat, pc, trace[0]) && i < |trace|
    ensures Inv(cat, pc, trace[i])
  {
    if i > 0 {
      RunInv(cat, pc, trace, moves, i - 1);
      assert StepAt(cat, pc, trace, moves, i - 1);
      var e := NextOk(cat, pc, trace[i - 1], moves[i - 1], trace[i]);
    }
  }

  /** In every interleaving of any number of requests, whenever a step changes the plan of an instance, the
      rules accept the change from the plan stored just before the step. No decision on a stale plan commits. */
  lemma PlanChangesAreAllowed(cat: Catalog, pc: Checker, trace: seq<Config>, moves: seq<Move>, i: nat, key: Key)
    requires WellFormed(cat) && IsRun(cat, pc, trace, moves) && InitialConfig(trace[0]) && i < |moves|
    requires InstanceGvk(key.gvk) && key in trace[i].store.composites && key in trace[i + 1].store.composites
    requires trace[i].store.composites[key].compositionRef != trace[i + 1].store.composites[key].compositionRef
    ensures var before := StoredPlan(cat, trace[i].store.composites[key]);
            var after := StoredPlan(cat, trace[i + 1].store.composites[key]);
            && before.Ok? && after.Ok? && AllowUpdate(pc, before.value.labels, after.value.labels)
    ensures moves[i].Advance? && moves[i].tid in trace[i].threads
    ensures trace[i].threads[moves[i].tid].point.CallUpdate?
    ensures trace[i].threads[moves[i].tid].point.found.instance.composite == trace[i].store.composites[key]
  {
    InitialConfigInv(cat, pc, trace[0]);
    RunInv(cat, pc, trace, moves, i);
    assert StepAt(cat, pc, trace, moves, i);
    var e := NextOk(cat, pc, trace[i], moves[i], trace[i + 1]);
    OnlyUpdatesChangePlans(cat, pc, trace[i], moves[i], trace[i + 1], key);
  }

  /** Every other call either adds the instance, removes it, or leaves it alone. */
  lemma OtherCallsKeepInstances(cat: Catalog, pc: Checker, s: State, req: Request, point: Point, fault: Fault, key: Key)
    requires Proper(req, point) && !point.CallUpdate?
    requires var s' := Step(cat, pc, req, point, s, fault).state; key in s.composites && key in s'.composites
    ensures Step(cat, pc, req, point, s, fault).state.composites[key] == s.composites[key]
  {
  }

  lemma OnlyUpdatesChangePlans(cat: Catalog, pc: Checker, c: Config, mv: Move, c': Config, key: Key)
    requires WellFormed(cat) && Inv(cat, pc, c) && Next(cat, pc, c, mv, c')
    requires InstanceGvk(key.gvk) && key in c.store.composites && key in c'.store.composites
    requires c.store.composites[key].compositionRef != c'.store.composites[key].compositionRef
    ensures mv.Advance? && mv.tid in c.threads && c.threads[mv.tid].point.CallUpdate?
    ensures c.threads[mv.tid].point.found.instance.composite == c.store.composites[key]
  {
    match mv
    case Spawn(_, _) =>
    case Controller(k, ready, refs, connection) =>
    case Bindings(s') => BindingChangeExplained(cat, pc, c.store, s');
    case Advance(tid, fault) =>
      var t := c.threads[tid];
      if t.point.CallUpdate? {
        UpdateCallChangesSnapshot(cat, pc, c.store, t.request, t.point, fault, key);
      } else {
        OtherCallsKeepInstances(cat, pc, c.store, t.request, t.point, fault, key);
      }
  }

  lemma UpdateCallChangesSnapshot(cat: Catalog, pc: Checker, s: State, req: Request, point: Point, fault: Fault,
                                  key: Key)
    requires Proper(req, point) && point.CallUpdate? && PointOk(cat, pc, s, point)
    requires var s' := Step(cat, pc, req, point, s, fault).state;
             key in s.composites && key in s'.composites && s.composites[key] != s'.composites[key]
    ensures point.found.instance.composite == s.composites[key]
  {
    var w := UpdateWrite(point.found, point.plan, point.params);
    if Store.Update(s, w.key, w.composite).Ok? {
      CommitIsFresh(cat, pc, s, point.found, point.plan, point.params);
    }
  }

  // ---------------------------------------------------------------- The life of an instance

  /** The instance exists throughout the stretch of the run. */
  ghost predicate Alive(trace: seq<Config>, key: Key, i: nat, j: nat)
  {
    j < |trace| && forall m :: i <= m <= j ==> key in trace[m].store.composites
  }

  function SizeOf(c: Composite): string
  {
    PlanSize(Text(c.labels, PlanNameLabel), Text(c.labels, SlaLabel))
  }

  function SlaOf(c: Composite): string
  {
    Text(c.labels, SlaLabel)
  }

  lemma SizeIsThePlans(cat: Catalog, key: Key, c: Composite)
    requires InstanceOk(cat, key, c)
    ensures SizeOf(c) == StoredPlan(cat, c).value.labels.planSize && SlaOf(c) == StoredPlan(cat, c).value.labels.sla
  {
  }

  lemma EffectOnOne(cat: Catalog, pc: Checker, e: Effect, s: State, s': State, key: Key)
    requires InstancesOk(cat, s) && Explains(cat, pc, e, s, s')
    requires InstanceGvk(key.gvk) && key in s.composites && key in s'.composites
    ensures var c, d := s.composites[key], s'.composites[key];
            && SameIdentity(c, d)
            && (SizeOf(c) == SizeOf(d) || Rule(SizeOf(c), SizeOf(d)) in pc.sizeRules)
            && (SlaOf(c) == SlaOf(d) || Rule(SlaOf(c), SlaOf(d)) in pc.slaRules)
  {
    if e == PlanChanged(key) {
      SizeIsThePlans(cat, key, s.composites[key]);
      SizeIsThePlans(cat, key, s'.composites[key]);
      AllowedUpdateFollowsRules(pc, StoredPlan(cat, s.composites[key]).value.labels,
                                StoredPlan(cat, s'.composites[key]).value.labels);
    }
  }

  /** One step of an instance's life. */
  ghost predicate OneStep(pc: Checker, c: Composite, d: Composite)
  {
    && SameIdentity(c, d)
    && (SizeOf(c) == SizeOf(d) || Rule(SizeOf(c), SizeOf(d)) in pc.sizeRules)
    && (SlaOf(c) == SlaOf(d) || Rule(SlaOf(c), SlaOf(d)) in pc.slaRules)
  }

  lemma StepOfALife(cat: Catalog, pc: Checker, trace: seq<Config>, moves: seq<Move>, key: Key, j: nat)
    requires WellFormed(cat) && IsRun(cat, pc, trace, moves) && InitialConfig(trace[0])
    requires InstanceGvk(key.gvk) && j < |moves|
    requires key in trace[j].store.composites && key in trace[j + 1].store.composites
    ensures OneStep(pc, trace[j].store.composites[key], trace[j + 1].store.composites[key])
  {
    InitialConfigInv(cat, pc, trace[0]);
    RunInv(cat, pc, trace, moves, j);
    assert StepAt(cat, pc, trace, moves, j);
    var e := NextOk(cat, pc, trace[j], moves[j], trace[j + 1]);
    EffectOnOne(cat, pc, e, trace[j].store, trace[j + 1].store, key);
  }

  /** The identity is kept, and size and SLA are reachable along the rules. */
  ghost predicate LivesOn(pc: Checker, c: Composite, d: Composite)
  {
    && SameIdentity(c, d)
    && Reaches(pc.sizeRules, SizeOf(c), SizeOf(d))
    && Reaches(pc.slaRules, SlaOf(c), SlaOf(d))
  }

  lemma LifeGoesOn(pc: Checker, b: Composite, c: Composite, d: Composite)
    requires LivesOn(pc, b, c) && OneStep(pc, c, d)
    ensures LivesOn(pc, b, d)
  {
    ReachesStep(pc.sizeRules, SizeOf(b), SizeOf(c), SizeOf(d));
    ReachesStep(pc.slaRules, SlaOf(b), SlaOf(c), SlaOf(d));
  }

  ghost predicate Chain(pc: Checker, life: seq<Composite>)
  {
    |life| >= 1 && forall m :: 0 <= m < |life| - 1 ==> OneStep(pc, life[m], life[m + 1])
  }

  lemma {:induction false} ChainLivesOn(pc: Checker, life: seq<Composite>)
    requires Chain(pc, life)
    ensures LivesOn(pc, life[0], life[|life| - 1])
    decreases |life|
  {
    var c := life[0];
    if |life| == 1 {
      ReachesSelf(pc.sizeRules, SizeOf(c));
      ReachesSelf(pc.slaRules, SlaOf(c));
    } else {
      ChainLivesOn(pc, life[..|life| - 1]);
      LifeGoesOn(pc, c, life[|life| - 2], life[|life| - 1]);
    }
  }

  /** Each step of the stretch is a step of the instance's life. */
  ghost predicate StepByStep(pc: Checker, trace: seq<Config>, key: Key, i: nat, j: nat)
    requires Alive(trace, key, i, j)
  {
    forall m :: i <= m < j ==> OneStep(pc, trace[m].store.composites[key], trace[m + 1].store.composites[key])
  }

  lemma EveryStepOfALife(cat: Catalog, pc: Checker, trace: seq<Config>, moves: seq<Move>, key: Key, i: nat, j: nat)
    requires WellFormed(cat) && IsRun(cat, pc, trace, moves) && InitialConfig(trace[0])
    requires InstanceGvk(key.gvk) && Alive(trace, key, i, j)
    ensures StepByStep(pc, trace, key, i, j)
  {
    forall m | i <= m < j ensures OneStep(pc, trace[m].store.composites[key], trace[m + 1].store.composites[key]) {
      StepOfALife(cat, pc, trace, moves, key, m);
    }
  }

  lemma StepByStepLivesOn(pc: Checker, trace: seq<Config>, key: Key, i: nat, j: nat)
    requires i <= j && Alive(trace, key, i, j) && StepByStep(pc, trace, key, i, j)
    ensures LivesOn(pc, trace[i].store.composites[key], trace[j].store.composites[key])
  {
    var life := seq(j - i + 1, m requires 0 <= m <= j - i => trace[i + m].store.composites[key]);
    assert Chain(pc, life);
    ChainLivesOn(pc, life);
  }

  /** As long as an instance exists, in every interleaving: its service, service id, instance id and parent
      label never change, and its size and its SLA are always reachable from the original ones along the
      size rules and the SLA rules. */
  lemma LifeOfAnInstance(cat: Catalog, pc: Checker, trace: seq<Config>, moves: seq<Move>, key: Key, i: nat, j: nat)
    requires WellFormed(cat) && IsRun(cat, pc, trace, moves) && InitialConfig(trace[0])
    requires InstanceGvk(key.gvk) && i <= j && Alive(trace, key, i, j)
    ensures LivesOn(pc, trace[i].store.composites[key], trace[j].store.composites[key])
  {
    EveryStepOfALife(cat, pc, trace, moves, key, i, j);
    StepByStepLivesOn(pc, trace, key, i, j);
  }
}
