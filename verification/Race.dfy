/** Why parent integrity does not survive every overlap of requests: checking the parent and creating the database
    are two calls, and so are listing the databases and deleting the parent. */
module Race {
  import opened Types
  import opened Metadata
  import opened PlanPolicy
  import opened Store
  import opened Catalog
  import opened Requests
  import opened Instances
  import opened Interleaving
  import opened Concurrency
  import opened SerialRuns
  import opened Lifecycle

  /** A cluster without databases, and the means to create one on it. */
  ghost predicate RaceSetup(cat: Catalog, s: State, id: string, name: string, plan: Plan)
  {
    && WellFormed(cat) && SerialInv(cat, s)
    && ParentKey(id) in s.composites && Children(s, id) == {}
    && FromCatalog(cat, plan) && ServiceOf(plan.labels.serviceName) == Some(MariaDBDatabase)
    && ChildKey(name) !in s.composites && name != ""
  }

  function ParentParams(id: string): Params
  {
    map[ParentReference := Str(id)]
  }

  function CreateRequest(id: string, name: string, plan: Plan, who: string): Request
  {
    ProvisionRequest(name, plan.name, Decoded(ParentParams(id)), Ok(who))
  }

  function CreateWrite(id: string, name: string, plan: Plan, who: string): Write
  {
    Write(ChildKey(name), NewComposite(plan, PlanLabels(plan, name, who)[ParentIdLabel := id], ParentParams(id)))
  }

  // ---------------------------------------------------------------- The Provision, call by call

  lemma CreateChecksInstance(cat: Catalog, pc: Checker, s: State, id: string, name: string, plan: Plan, who: string)
    requires RaceSetup(cat, s, id, name, plan)
    ensures var req := CreateRequest(id, name, plan, who);
            && Start(cat, req) == GetInstanceFor(plan)
            && Step(cat, pc, req, GetInstanceFor(plan), s, NoFault)
               == Stepped(s, GetParentForCreate(id, plan, ParentParams(id)))
  {
    assert PlanBuildsService(plan);
    assert Lookup(s, name, plan) == Ok(None);
    assert LocalParams(plan.labels.serviceName, Decoded(ParentParams(id))) == Ok(NeedsParent(id, ParentParams(id)));
  }

  lemma WriteIsPrepared(id: string, name: string, plan: Plan, who: string)
    requires PlanGvk(plan) == Ok(SynTools(DatabaseKind))
    ensures PrepareCreate(name, plan, ParentParams(id), Ok(who)) == Ok(CreateWrite(id, name, plan, who))
  {
    assert PrepareLabels(name, plan, ParentParams(id), Ok(who)) == Ok(PlanLabels(plan, name, who)[ParentIdLabel := id]);
  }

  lemma CreateChecksParent(cat: Catalog, pc: Checker, s: State, id: string, name: string, plan: Plan, who: string)
    requires PlanGvk(plan) == Ok(SynTools(DatabaseKind)) && ParentKey(id) in s.composites
    ensures Step(cat, pc, CreateRequest(id, name, plan, who), GetParentForCreate(id, plan, ParentParams(id)), s,
                 NoFault)
         == Stepped(s, CallCreate(CreateWrite(id, name, plan, who)))
  {
    WriteIsPrepared(id, name, plan, who);
  }

  lemma CreateCommits(cat: Catalog, pc: Checker, s: State, id: string, name: string, plan: Plan, who: string)
    requires name != "" && ChildKey(name) !in s.composites
    ensures Step(cat, pc, CreateRequest(id, name, plan, who), CallCreate(CreateWrite(id, name, plan, who)), s, NoFault)
         == Stepped(Put(s, ChildKey(name), CreateWrite(id, name, plan, who).composite), Done(Ok(Changed)))
  {
  }

  // ---------------------------------------------------------------- The Deprovision, call by call

  function DeleteRequest(s: State, id: string, listed: seq<string>): Request
    requires ParentKey(id) in s.composites
  {
    DeprovisionRequest(id, s.composites[ParentKey(id)].compositionRef, listed)
  }

  lemma DeleteFinds(cat: Catalog, pc: Checker, s: State, id: string, listed: seq<string>)
    returns (parent: Plan, found: Found)
    requires WellFormed(cat) && SerialInv(cat, s) && ParentKey(id) in s.composites
    ensures Start(cat, DeleteRequest(s, id, listed)) == SearchPlans([parent])
    ensures Step(cat, pc, DeleteRequest(s, id, listed), SearchPlans([parent]), s, NoFault)
            == Stepped(s, ListDatabases(found))
    ensures found.instance.key == ParentKey(id) && PlanGvk(found.plan) == Ok(SynTools(MariaDBKind))
  {
    DatabaseIsInstance();
    var c := s.composites[ParentKey(id)];
    StoredInstanceIsFound(cat, s, ParentKey(id));
    KindMatchesService(cat, ParentKey(id), c);
    var labels := ParseLabels(c.labels).value;
    ServiceGvkInjective(ServiceOf(labels.serviceName).value, MariaDB);
    parent := StoredPlan(cat, c).value;
    found := Found(parent, Instance(ParentKey(id), c, labels));
    assert Lookup(s, id, parent) == Ok(Some(found.instance));
  }

  lemma DeleteLists(cat: Catalog, pc: Checker, s: State, req: Request, found: Found)
    requires req.DeprovisionRequest?
    requires PlanGvk(found.plan) == Ok(found.instance.key.gvk) && Children(s, found.instance.key.name) == {}
    ensures Step(cat, pc, req, ListDatabases(found), s, NoFault) == Stepped(s, CallDelete(found.instance.key))
  {
  }

  lemma DeleteCommits(cat: Catalog, pc: Checker, s: State, req: Request, key: Key)
    requires req.DeprovisionRequest? && key in s.composites
    ensures Step(cat, pc, req, CallDelete(key), s, NoFault) == Stepped(Delete(s, key).value, Done(Ok(Changed)))
  {
  }

  // ---------------------------------------------------------------- The run

  lemma Extend(cat: Catalog, pc: Checker, trace: seq<Config>, moves: seq<Move>, mv: Move, c: Config)
    requires IsRun(cat, pc, trace, moves) && Next(cat, pc, trace[|trace| - 1], mv, c)
    ensures IsRun(cat, pc, trace + [c], moves + [mv])
  {
    var trace', moves' := trace + [c], moves + [mv];
    forall i: nat | i < |moves'| ensures StepAt(cat, pc, trace', moves', i) {
      if i < |moves| {
        assert StepAt(cat, pc, trace, moves, i);
        assert trace'[i] == trace[i] && trace'[i + 1] == trace[i + 1] && moves'[i] == moves[i];
      }
    }
  }

  /** A thread makes its next call. */
  lemma ExtendByCall(cat: Catalog, pc: Checker, trace: seq<Config>, moves: seq<Move>, tid: nat, st: Stepped)
    returns (trace': seq<Config>, moves': seq<Move>)
    requires IsRun(cat, pc, trace, moves)
    requires var c := trace[|trace| - 1];
             && tid in c.threads && Proper(c.threads[tid].request, c.threads[tid].point)
             && Step(cat, pc, c.threads[tid].request, c.threads[tid].point, c.store, NoFault) == st
    ensures IsRun(cat, pc, trace', moves') && trace'[0] == trace[0]
    ensures var c := trace[|trace| - 1];
            trace'[|trace'| - 1] == Config(st.state, c.threads[tid := c.threads[tid].(point := st.point)])
  {
    var c := trace[|trace| - 1];
    var c' := Config(st.state, c.threads[tid := c.threads[tid].(point := st.point)]);
    Extend(cat, pc, trace, moves, Advance(tid, NoFault), c');
    trace', moves' := trace + [c'], moves + [Advance(tid, NoFault)];
  }

  lemma ExtendBySpawn(cat: Catalog, pc: Checker, trace: seq<Config>, moves: seq<Move>, tid: nat, req: Request)
    returns (trace': seq<Config>, moves': seq<Move>)
    requires IsRun(cat, pc, trace, moves) && tid !in trace[|trace| - 1].threads && ListsTruthfully(cat, req)
    ensures IsRun(cat, pc, trace', moves') && trace'[0] == trace[0]
    ensures var c := trace[|trace| - 1];
            trace'[|trace'| - 1] == Config(c.store, c.threads[tid := Thread(req, Start(cat, req))])
  {
    var c := trace[|trace| - 1];
    var c' := c.(threads := c.threads[tid := Thread(req, Start(cat, req))]);
    Extend(cat, pc, trace, moves, Spawn(tid, req), c');
    trace', moves' := trace + [c'], moves + [Spawn(tid, req)];
  }

  /** A request is alone and has made its first call. */
  lemma FirstCall(cat: Catalog, pc: Checker, s: State, req: Request, p: Point)
    returns (trace: seq<Config>, moves: seq<Move>)
    requires ListsTruthfully(cat, req) && Proper(req, Start(cat, req))
    requires Step(cat, pc, req, Start(cat, req), s, NoFault) == Stepped(s, p)
    ensures IsRun(cat, pc, trace, moves) && trace[0] == Config(s, map[])
    ensures trace[|trace| - 1] == Config(s, map[0 := Thread(req, p)])
  {
    trace, moves := [Config(s, map[])], [];
    trace, moves := ExtendBySpawn(cat, pc, trace, moves, 0, req);
    trace, moves := ExtendByCall(cat, pc, trace, moves, 0, Stepped(s, p));
    assert trace[|trace| - 1].threads == map[0 := Thread(req, p)];
  }

  lemma TwoCalls(cat: Catalog, pc: Checker, s: State, req: Request, p: Point, q: Point)
    returns (trace: seq<Config>, moves: seq<Move>)
    requires ListsTruthfully(cat, req)
    requires Proper(req, Start(cat, req)) && Step(cat, pc, req, Start(cat, req), s, NoFault) == Stepped(s, p)
    requires Proper(req, p) && Step(cat, pc, req, p, s, NoFault) == Stepped(s, q)
    ensures IsRun(cat, pc, trace, moves) && trace[0] == Config(s, map[])
    ensures trace[|trace| - 1] == Config(s, map[0 := Thread(req, q)])
  {
    trace, moves := FirstCall(cat, pc, s, req, p);
    trace, moves := ExtendByCall(cat, pc, trace, moves, 0, Stepped(s, q));
    assert trace[|trace| - 1].threads == map[0 := Thread(req, q)];
  }

  /** The first half: the Provision has seen the cluster and is about to create the database. */
  lemma ProvisionWaits(cat: Catalog, pc: Checker, s: State, id: string, name: string, plan: Plan, who: string)
    returns (trace: seq<Config>, moves: seq<Move>)
    requires RaceSetup(cat, s, id, name, plan)
    ensures IsRun(cat, pc, trace, moves) && trace[0] == Config(s, map[])
    ensures trace[|trace| - 1]
         == Config(s, map[0 := Thread(CreateRequest(id, name, plan, who),
                                      CallCreate(CreateWrite(id, name, plan, who)))])
  {
    assert PlanBuildsService(plan);
    StartIsProper(cat, CreateRequest(id, name, plan, who));
    CreateChecksInstance(cat, pc, s, id, name, plan, who);
    CreateChecksParent(cat, pc, s, id, name, plan, who);
    trace, moves := TwoCalls(cat, pc, s, CreateRequest(id, name, plan, who),
                             GetParentForCreate(id, plan, ParentParams(id)),
                             CallCreate(CreateWrite(id, name, plan, who)));
  }

  /** The second half: meanwhile the cluster is found unused and deleted. */
  lemma ParentVanishes(cat: Catalog, pc: Checker, s: State, id: string, name: string, plan: Plan, who: string,
                       listed: seq<string>)
    returns (trace: seq<Config>, moves: seq<Move>)
    requires RaceSetup(cat, s, id, name, plan) && Listing(cat, listed)
    ensures IsRun(cat, pc, trace, moves) && trace[0] == Config(s, map[])
    ensures var c := trace[|trace| - 1];
            && c.store == Delete(s, ParentKey(id)).value
            && 0 in c.threads
            && c.threads[0] == Thread(CreateRequest(id, name, plan, who), CallCreate(CreateWrite(id, name, plan, who)))
            && 1 in c.threads && c.threads[1].point == Done(Ok(Changed))
  {
    trace, moves := ProvisionWaits(cat, pc, s, id, name, plan, who);
    var req := DeleteRequest(s, id, listed);
    var parent, found := DeleteFinds(cat, pc, s, id, listed);
    trace, moves := ExtendBySpawn(cat, pc, trace, moves, 1, req);
    trace, moves := ExtendByCall(cat, pc, trace, moves, 1, Stepped(s, ListDatabases(found)));
    DeleteLists(cat, pc, s, req, found);
    trace, moves := ExtendByCall(cat, pc, trace, moves, 1, Stepped(s, CallDelete(ParentKey(id))));
    DeleteCommits(cat, pc, s, req, ParentKey(id));
    trace, moves := ExtendByCall(cat, pc, trace, moves, 1, Stepped(Delete(s, ParentKey(id)).value, Done(Ok(Changed))));
  }

  lemma DatabaseOrphaned(s: State, id: string, name: string, plan: Plan, who: string)
    requires ParentKey(id) !in s.composites
    ensures !ParentsExist(Put(s, ChildKey(name), CreateWrite(id, name, plan, who).composite))
  {
    var s' := Put(s, ChildKey(name), CreateWrite(id, name, plan, who).composite);
    assert s'.composites[ChildKey(name)].labels[ParentIdLabel] == id;
    assert ParentKey(id) !in s'.composites;
  }

  /** From every state with an unused cluster, one Provision and one Deprovision can interleave so that both
      succeed and leave a database whose parent does not exist. */
  lemma RaceBreaksParents(cat: Catalog, pc: Checker, s: State, id: string, name: string, plan: Plan, who: string,
                          listed: seq<string>)
    returns (trace: seq<Config>, moves: seq<Move>)
    requires RaceSetup(cat, s, id, name, plan) && Listing(cat, listed)
    ensures IsRun(cat, pc, trace, moves) && trace[0] == Config(s, map[])
    ensures var last := trace[|trace| - 1];
            && 0 in last.threads && last.threads[0].point == Done(Ok(Changed))
            && 1 in last.threads && last.threads[1].point == Done(Ok(Changed))
    ensures ParentsExist(trace[0].store) && !ParentsExist(trace[|trace| - 1].store)
  {
    trace, moves := ParentVanishes(cat, pc, s, id, name, plan, who, listed);
    var s' := Delete(s, ParentKey(id)).value;
    CreateCommits(cat, pc, s', id, name, plan, who);
    var w := CreateWrite(id, name, plan, who);
    trace, moves := ExtendByCall(cat, pc, trace, moves, 0,
                                 Stepped(Put(s', ChildKey(name), w.composite), Done(Ok(Changed))));
    DatabaseOrphaned(s', id, name, plan, who);
  }
}
