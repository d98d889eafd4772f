/** Which overlaps of requests leave a database without its parent, and which do not. */
module Overlap {
  import opened Types
  import opened Metadata
  import opened PlanPolicy
  import opened Store
  import opened Catalog
  import opened Requests
  import opened Instances
  import opened Interleaving
  import opened Concurrency
  import opened SerialRuns
  import opened Lifecycle

  // ---------------------------------------------------------------- How instances come and go

  lemma AppearsByCreate(cat: Catalog, pc: Checker, c: Config, mv: Move, c': Config, k: Key)
    requires Next(cat, pc, c, mv, c') && k.gvk != SynTools(UserKind)
    requires k !in c.store.composites && k in c'.store.composites
    ensures mv.Advance? && c.threads[mv.tid].point.CallCreate? && c.threads[mv.tid].point.write.key == k
    ensures c'.store.composites[k].labels == c.threads[mv.tid].point.write.composite.labels
  {
  }

  lemma VanishesByDelete(cat: Catalog, pc: Checker, c: Config, mv: Move, c': Config, k: Key)
    requires Next(cat, pc, c, mv, c') && k.gvk != SynTools(UserKind)
    requires k in c.store.composites && k !in c'.store.composites
    ensures mv.Advance? && c.threads[mv.tid].point == CallDelete(k)
  {
  }

  lemma IdentityStays(cat: Catalog, pc: Checker, c: Config, mv: Move, c': Config, k: Key)
    requires WellFormed(cat) && Inv(cat, pc, c) && Next(cat, pc, c, mv, c') && InstanceGvk(k.gvk)
    requires k in c.store.composites && k in c'.store.composites
    ensures SameIdentity(c.store.composites[k], c'.store.composites[k])
  {
    var e := NextOk(cat, pc, c, mv, c');
    EffectOnOne(cat, pc, e, c.store, c'.store, k);
  }

  // ---------------------------------------------------------------- One step

  /** The step creates a database whose labelled cluster is not stored (any more), or deletes a cluster that
      databases are labelled with. */
  ghost predicate Harmful(c: Config, mv: Move, c': Config)
  {
    && mv.Advance? && mv.tid in c.threads && c'.store != c.store
    && match c.threads[mv.tid].point
       case CallCreate(w) => !ParentPresent(c.store, w.key, w.composite)
       case CallDelete(key) => key.gvk == SynTools(MariaDBKind) && Children(c.store, key.name) != {}
       case _ => false
  }

  lemma ParentOutlives(cat: Catalog, pc: Checker, c: Config, mv: Move, c': Config, k: Key)
    requires WellFormed(cat) && Inv(cat, pc, c) && Next(cat, pc, c, mv, c') && ParentsExist(c.store)
    requires !Harmful(c, mv, c')
    requires k in c'.store.composites && k.gvk == SynTools(DatabaseKind)
    requires ParentIdLabel in c'.store.composites[k].labels
    ensures ParentKey(c'.store.composites[k].labels[ParentIdLabel]) in c'.store.composites
  {
    DatabaseIsInstance();
    var parent := ParentKey(c'.store.composites[k].labels[ParentIdLabel]);
    if k in c.store.composites {
      IdentityStays(cat, pc, c, mv, c', k);
      assert parent in c.store.composites;
      if parent !in c'.store.composites {
        VanishesByDelete(cat, pc, c, mv, c', parent);
        ChildrenMeaning(c.store, parent.name, k.name);
      }
    } else {
      AppearsByCreate(cat, pc, c, mv, c', k);
      if parent in c.store.composites && parent !in c'.store.composites {
        VanishesByDelete(cat, pc, c, mv, c', parent);
      }
    }
  }

  lemma CreateOrphans(s: State, w: Write)
    requires !ParentPresent(s, w.key, w.composite)
    ensures !ParentsExist(Put(s, w.key, w.composite))
  {
    var parent := ParentKey(w.composite.labels[ParentIdLabel]);
    assert parent !in Put(s, w.key, w.composite).composites;
    assert w.key in Put(s, w.key, w.composite).composites;
  }

  lemma DeleteOrphans(s: State, key: Key)
    requires key in s.composites && key.gvk == SynTools(MariaDBKind) && Children(s, key.name) != {}
    ensures !ParentsExist(Delete(s, key).value)
  {
    var n :| n in Children(s, key.name);
    ChildrenMeaning(s, key.name, n);
    var s' := Delete(s, key).value;
    assert ChildKey(n) in s'.composites && s'.composites[ChildKey(n)] == s.composites[ChildKey(n)];
  }

  lemma HarmDone(cat: Catalog, pc: Checker, c: Config, mv: Move, c': Config)
    requires Next(cat, pc, c, mv, c') && Harmful(c, mv, c')
    ensures !ParentsExist(c'.store)
  {
    match c.threads[mv.tid].point
    case CallCreate(w) =>
      assert c'.store == Put(c.store, w.key, w.composite);
      CreateOrphans(c.store, w);
    case CallDelete(key) =>
      assert key in c.store.composites && c'.store == Delete(c.store, key).value;
      DeleteOrphans(c.store, key);
  }

  /** In every interleaving, a step keeps all parents exactly unless it takes effect as one of two calls: the
      creation of a database whose labelled cluster is not stored, or the deletion of a cluster in use. */
  lemma NextKeepsParentsIff(cat: Catalog, pc: Checker, c: Config, mv: Move, c': Config)
    requires WellFormed(cat) && Inv(cat, pc, c) && Next(cat, pc, c, mv, c') && ParentsExist(c.store)
    ensures ParentsExist(c'.store) <==> !Harmful(c, mv, c')
  {
    if Harmful(c, mv, c') {
      HarmDone(cat, pc, c, mv, c');
    } else {
      forall k | k in c'.store.composites && k.gvk == SynTools(DatabaseKind)
                 && ParentIdLabel in c'.store.composites[k].labels
        ensures Key(SynTools(MariaDBKind), c'.store.composites[k].labels[ParentIdLabel]) in c'.store.composites
      {
        ParentOutlives(cat, pc, c, mv, c', k);
      }
    }
  }

  // ---------------------------------------------------------------- Requests that must not overlap

  /** The request is to create a database on this cluster. */
  ghost predicate NamesParent(cat: Catalog, req: Request, parent: string)
  {
    && req.ProvisionRequest? && req.raw.Decoded? && ParentRef(req.raw.params) == Ok(parent)
    && GetPlan(cat, req.planId).Ok?
    && ServiceOf(GetPlan(cat, req.planId).value.labels.serviceName) == Some(MariaDBDatabase)
  }

  predicate InFlight(t: Thread)
  {
    !t.point.Done?
  }

  /** No Deprovision of a cluster is in flight together with the creation of a database on it. */
  ghost predicate NoOverlap(cat: Catalog, c: Config)
  {
    forall t, r :: t in c.threads && r in c.threads
                   && InFlight(c.threads[t]) && InFlight(c.threads[r]) && c.threads[t].request.DeprovisionRequest? ==>
      !NamesParent(cat, c.threads[r].request, c.threads[t].request.id)
  }

  /** What a request has checked still holds. */
  ghost predicate Checked(cat: Catalog, s: State, req: Request, point: Point)
  {
    match point
    case GetInstanceFor(plan) => GetPlan(cat, req.planId) == Ok(plan)
    case GetParentForCreate(parent, plan, params) =>
      NamesParent(cat, req, parent) && req.raw == Decoded(params)
    case CallCreate(w) =>
      w.key.gvk == SynTools(DatabaseKind) && ParentIdLabel in w.composite.labels ==>
        NamesParent(cat, req, w.composite.labels[ParentIdLabel])
        && ParentKey(w.composite.labels[ParentIdLabel]) in s.composites
    case ListDatabases(found) => found.instance.key.name == req.id
    case CallDelete(key) => key.name == req.id && (key.gvk == SynTools(MariaDBKind) ==> Children(s, key.name) == {})
    case _ => true
  }

  ghost predicate AllChecked(cat: Catalog, c: Config)
  {
    forall t :: t in c.threads ==> Checked(cat, c.store, c.threads[t].request, c.threads[t].point)
  }

  // ---------------------------------------------------------------- A request checks before it writes

  lemma StartChecked(cat: Catalog, s: State, req: Request)
    ensures Checked(cat, s, req, Start(cat, req))
  {
  }

  lemma CreateChecked(cat: Catalog, s: State, req: Request, plan: Plan, params: Params)
    requires WellFormed(cat) && FromCatalog(cat, plan)
    requires ServiceOf(plan.labels.serviceName) == Some(MariaDBDatabase) && ParentReference in params ==>
               params[ParentReference].Str? && NamesParent(cat, req, params[ParentReference].s)
               && ParentKey(params[ParentReference].s) in s.composites
    ensures req.ProvisionRequest? ==> Checked(cat, s, req, ReadyToCreate(req.id, plan, params, req.principal))
  {
    if req.ProvisionRequest? && PrepareCreate(req.id, plan, params, req.principal).Ok? {
      assert PlanBuildsService(plan);
      var service := ServiceOf(plan.labels.serviceName).value;
      if service != MariaDBDatabase && ServiceGvk(service) == SynTools(DatabaseKind) {
        ServiceGvkInjective(service, MariaDBDatabase);
      }
      PreparedLabelsCarry(req.id, plan, params, req.principal);
    }
  }

  lemma AfterMissChecked(cat: Catalog, s: State, req: Request, plan: Plan)
    requires WellFormed(cat) && req.ProvisionRequest? && GetPlan(cat, req.planId) == Ok(plan)
    ensures Checked(cat, s, req, AfterMiss(req, plan))
  {
    assert FromCatalog(cat, plan);
    if req.raw.Absent? {
      CreateChecked(cat, s, req, plan, map[]);
    } else {
      match LocalParams(plan.labels.serviceName, req.raw)
      case Err(_) =>
      case Ok(Ready(params)) => CreateChecked(cat, s, req, plan, params);
      case Ok(NeedsParent(parent, params)) =>
    }
  }

  lemma FoundChecked(cat: Catalog, s: State, req: Request, plan: Plan, instance: Instance)
    requires WellFormed(cat) && InstancesOk(cat, s) && req.DeprovisionRequest? && FromCatalog(cat, plan)
    requires Lookup(s, req.id, plan) == Ok(Some(instance))
    ensures Checked(cat, s, req, AfterFoundForDeprovision(Found(plan, instance)))
  {
    LookupMeaning(s, req.id, plan);
    PlanGvkIsInstanceGvk(cat, plan);
    KindMatchesService(cat, instance.key, instance.composite);
  }

  lemma UpdateChecked(cat: Catalog, pc: Checker, s: State, req: Request, found: Found)
    requires req.UpdateRequest?
    ensures Checked(cat, s, req, AfterFoundForUpdate(cat, pc, req, found))
  {
    AfterFoundForUpdateIsProper(cat, pc, req, found);
  }

  lemma AfterFoundChecked(cat: Catalog, pc: Checker, s: State, req: Request, plan: Plan, instance: Instance)
    requires WellFormed(cat) && InstancesOk(cat, s) && !req.ProvisionRequest? && FromCatalog(cat, plan)
    requires Lookup(s, req.id, plan) == Ok(Some(instance))
    ensures Checked(cat, s, req, AfterFound(cat, pc, req, Found(plan, instance)))
  {
    if req.DeprovisionRequest? {
      FoundChecked(cat, s, req, plan, instance);
    } else {
      UpdateChecked(cat, pc, s, req, Found(plan, instance));
    }
  }

  /** A step of the search ends the request, goes on searching, or continues with what was found. */
  lemma SearchOutcome(cat: Catalog, pc: Checker, s: State, req: Request, plans: seq<Plan>)
    requires !req.ProvisionRequest? && plans != []
    ensures var p := ReadStep(cat, pc, req, SearchPlans(plans), s);
            var r := Lookup(s, req.id, plans[0]);
            if r.Ok? && r.value.Some? then p == AfterFound(cat, pc, req, Found(plans[0], r.value.value))
            else p.Done? || p.SearchPlans?
  {
  }

  lemma SearchChecked(cat: Catalog, pc: Checker, s: State, req: Request, plans: seq<Plan>)
    requires WellFormed(cat) && InstancesOk(cat, s) && !req.ProvisionRequest? && plans != []
    requires FromCatalog(cat, plans[0])
    ensures Checked(cat, s, req, ReadStep(cat, pc, req, SearchPlans(plans), s))
  {
    SearchOutcome(cat, pc, s, req, plans);
    var r := Lookup(s, req.id, plans[0]);
    if r.Ok? && r.value.Some? {
      AfterFoundChecked(cat, pc, s, req, plans[0], r.value.value);
    }
  }

  lemma ParentChecked(cat: Catalog, pc: Checker, s: State, req: Request, parent: string, plan: Plan, params: Params)
    requires WellFormed(cat) && FromCatalog(cat, plan)
    requires Checked(cat, s, req, GetParentForCreate(parent, plan, params))
    ensures Checked(cat, s, req, ReadStep(cat, pc, req, GetParentForCreate(parent, plan, params), s))
  {
    if Get(s, Key(SynTools(MariaDBKind), parent)).Ok? {
      CreateChecked(cat, s, req, plan, params);
    }
  }

  lemma ReadChecked(cat: Catalog, pc: Checker, s: State, req: Request, point: Point)
    requires WellFormed(cat) && InstancesOk(cat, s) && Proper(req, point) && PointOk(cat, pc, s, point)
    requires Checked(cat, s, req, point)
    requires !point.CallCreate? && !point.CallUpdate? && !point.CallDelete?
    ensures Checked(cat, s, req, ReadStep(cat, pc, req, point, s))
  {
    match point
    case GetInstanceFor(plan) => AfterMissChecked(cat, s, req, plan);
    case GetParentForCreate(parent, plan, params) => ParentChecked(cat, pc, s, req, parent, plan, params);
    case SearchPlans(plans) => SearchChecked(cat, pc, s, req, plans);
    case _ =>
  }

  // ---------------------------------------------------------------- What was checked is not undone

  /** The steps of other requests do not undo what a request has checked, as long as no two overlap. */
  lemma StaysChecked(cat: Catalog, pc: Checker, c: Config, mv: Move, c': Config, t: nat)
    requires WellFormed(cat) && Inv(cat, pc, c) && Next(cat, pc, c, mv, c') && NoOverlap(cat, c) && AllChecked(cat, c)
    requires t in c.threads && (mv.Advance? ==> mv.tid != t)
    ensures Checked(cat, c'.store, c.threads[t].request, c.threads[t].point)
  {
    match c.threads[t].point
    case CallCreate(w) =>
      if w.key.gvk == SynTools(DatabaseKind) && ParentIdLabel in w.composite.labels {
        ParentNotDeleted(cat, pc, c, mv, c', t, w.composite.labels[ParentIdLabel]);
      }
    case CallDelete(key) =>
      if key.gvk == SynTools(MariaDBKind) {
        NoChildAdded(cat, pc, c, mv, c', t);
      }
    case _ =>
  }

  /** The cluster is not about to be deleted while a database is about to be created on it. */
  lemma NotAboutToDelete(cat: Catalog, c: Config, t: nat, u: nat, parent: string)
    requires NoOverlap(cat, c) && AllChecked(cat, c) && t in c.threads && u in c.threads
    requires c.threads[t].point.CallCreate? && NamesParent(cat, c.threads[t].request, parent)
    requires Proper(c.threads[u].request, c.threads[u].point)
    ensures c.threads[u].point != CallDelete(ParentKey(parent))
  {
    assert Checked(cat, c.store, c.threads[u].request, c.threads[u].point);
  }

  lemma ParentNotDeleted(cat: Catalog, pc: Checker, c: Config, mv: Move, c': Config, t: nat, parent: string)
    requires Inv(cat, pc, c) && Next(cat, pc, c, mv, c') && NoOverlap(cat, c) && AllChecked(cat, c)
    requires t in c.threads && c.threads[t].point.CallCreate? && NamesParent(cat, c.threads[t].request, parent)
    requires ParentKey(parent) in c.store.composites
    ensures ParentKey(parent) in c'.store.composites
  {
    if ParentKey(parent) !in c'.store.composites {
      VanishesByDelete(cat, pc, c, mv, c', ParentKey(parent));
      NotAboutToDelete(cat, c, t, mv.tid, parent);
    }
  }

  lemma NoChildAdded(cat: Catalog, pc: Checker, c: Config, mv: Move, c': Config, t: nat)
    requires WellFormed(cat) && Inv(cat, pc, c) && Next(cat, pc, c, mv, c') && NoOverlap(cat, c) && AllChecked(cat, c)
    requires t in c.threads && c.threads[t].point.CallDelete?
    requires c.threads[t].point.key.gvk == SynTools(MariaDBKind)
    ensures Children(c'.store, c.threads[t].point.key.name) == {}
  {
    var parent := c.threads[t].point.key.name;
    assert Checked(cat, c.store, c.threads[t].request, c.threads[t].point);
    forall n ensures n !in Children(c'.store, parent) {
      ChildrenMeaning(c.store, parent, n);
      ChildrenMeaning(c'.store, parent, n);
      if n in Children(c'.store, parent) {
        ChildWasThere(cat, pc, c, mv, c', t, n);
      }
    }
  }

  lemma ChildWasThere(cat: Catalog, pc: Checker, c: Config, mv: Move, c': Config, t: nat, n: string)
    requires WellFormed(cat) && Inv(cat, pc, c) && Next(cat, pc, c, mv, c') && NoOverlap(cat, c) && AllChecked(cat, c)
    requires t in c.threads && c.threads[t].point.CallDelete?
    requires var k := ChildKey(n);
             k in c'.store.composites && IsChild(k, c'.store.composites[k], c.threads[t].point.key.name)
    ensures var k := ChildKey(n);
            k in c.store.composites && IsChild(k, c.store.composites[k], c.threads[t].point.key.name)
  {
    DatabaseIsInstance();
    var k := ChildKey(n);
    assert Checked(cat, c.store, c.threads[t].request, c.threads[t].point);
    if k in c.store.composites {
      IdentityStays(cat, pc, c, mv, c', k);
    } else {
      AppearsByCreate(cat, pc, c, mv, c', k);
    }
  }

  // ---------------------------------------------------------------- Runs

  lemma NextChecked(cat: Catalog, pc: Checker, c: Config, mv: Move, c': Config)
    requires WellFormed(cat) && Inv(cat, pc, c) && Next(cat, pc, c, mv, c') && NoOverlap(cat, c) && AllChecked(cat, c)
    ensures AllChecked(cat, c')
  {
    forall t | t in c'.threads ensures Checked(cat, c'.store, c'.threads[t].request, c'.threads[t].point) {
      if mv.Advance? && mv.tid == t {
        var u := c.threads[t];
        assert Checked(cat, c.store, u.request, u.point);
        AdvanceChecked(cat, pc, c.store, u.request, u.point, mv.fault);
      } else if t in c.threads {
        StaysChecked(cat, pc, c, mv, c', t);
      } else {
        StartChecked(cat, c.store, c'.threads[t].request);
      }
    }
  }

  lemma AdvanceChecked(cat: Catalog, pc: Checker, s: State, req: Request, point: Point, fault: Fault)
    requires WellFormed(cat) && InstancesOk(cat, s) && Proper(req, point) && PointOk(cat, pc, s, point)
    requires Checked(cat, s, req, point)
    ensures var st := Step(cat, pc, req, point, s, fault); Checked(cat, st.state, req, st.point)
  {
    if !point.CallCreate? && !point.CallUpdate? && !point.CallDelete? {
      ReadChecked(cat, pc, s, req, point);
    }
  }

  /** Requests that have checked do no harm. */
  lemma CheckedIsHarmless(cat: Catalog, pc: Checker, c: Config, mv: Move, c': Config)
    requires Next(cat, pc, c, mv, c') && AllChecked(cat, c)
    ensures !Harmful(c, mv, c')
  {
    if mv.Advance? {
      assert Checked(cat, c.store, c.threads[mv.tid].request, c.threads[mv.tid].point);
    }
  }

  lemma {:induction false} RunKeepsParents(cat: Catalog, pc: Checker, trace: seq<Config>, moves: seq<Move>, i: nat)
    requires WellFormed(cat) && IsRun(cat, pc, trace, moves) && InitialConfig(trace[0]) && i < |trace|
    requires forall j :: 0 <= j < |trace| ==> NoOverlap(cat, trace[j])
    ensures Inv(cat, pc, trace[i]) && AllChecked(cat, trace[i]) && ParentsExist(trace[i].store)
  {
    InitialConfigInv(cat, pc, trace[0]);
    DatabaseIsInstance();
    if i > 0 {
      RunKeepsParents(cat, pc, trace, moves, i - 1);
      var c, mv, c' := trace[i - 1], moves[i - 1], trace[i];
      assert StepAt(cat, pc, trace, moves, i - 1);
      var e := NextOk(cat, pc, c, mv, c');
      NextChecked(cat, pc, c, mv, c');
      CheckedIsHarmless(cat, pc, c, mv, c');
      NextKeepsParentsIff(cat, pc, c, mv, c');
    }
  }

  /** In every interleaving of any number of requests in which no Deprovision of a cluster is in flight together
      with the creation of a database on it, each database with a parent label names an existing cluster. */
  lemma ParentsExistWithoutOverlap(cat: Catalog, pc: Checker, trace: seq<Config>, moves: seq<Move>, i: nat, k: Key)
    requires WellFormed(cat) && IsRun(cat, pc, trace, moves) && InitialConfig(trace[0]) && i < |trace|
    requires forall j :: 0 <= j < |trace| ==> NoOverlap(cat, trace[j])
    requires k in trace[i].store.composites && k.gvk == SynTools(DatabaseKind)
    requires ParentIdLabel in trace[i].store.composites[k].labels
    ensures ParentKey(trace[i].store.composites[k].labels[ParentIdLabel]) in trace[i].store.composites
  {
    RunKeepsParents(cat, pc, trace, moves, i);
  }
}
