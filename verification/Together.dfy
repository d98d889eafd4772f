/** The whole broker at once: instance requests, binding requests, the controllers and the garbage collector
    interleave on one store. Its runs are runs of both partial systems, so that what is proved of either holds. */
module Together {
  import opened Types
  import opened PlanPolicy
  import opened Store
  import opened Catalog
  import opened Requests
  import opened Interleaving
  import Concurrency
  import Bindings
  import BindingSafety
  import BindingRuns

  datatype Whole = Whole(
    store: State,
    threads: map<nat, Concurrency.Thread>,
    binders: map<nat, Bindings.Binder>,
    unbinders: map<nat, Bindings.Unbinder>,
    retired: set<string>,
    gone: set<string>,
    named: set<string>
  )

  datatype Move =
    | OnInstances(instances: Concurrency.Move)
    | OnBindings(bindings: Bindings.Move)
    | OnSecrets(after: State)

  function InstanceView(w: Whole): Concurrency.Config
  {
    Concurrency.Config(w.store, w.threads)
  }

  function BindingView(w: Whole): Bindings.System
  {
    Bindings.System(w.store, w.binders, w.unbinders, w.retired, w.gone, w.named)
  }

  /** Providers may change every secret that is not a binding's password. */
  ghost predicate SecretChange(s: State, s': State)
  {
    && s'.composites == s.composites && s'.users == s.users && s'.strict == s.strict && s.clock <= s'.clock
    && forall id: string ::
         (BindingPassword(id) in s.secrets <==> BindingPassword(id) in s'.secrets)
         && (BindingPassword(id) in s.secrets ==> s.secrets[BindingPassword(id)] == s'.secrets[BindingPassword(id)])
  }

  /** Each move is a move of one part and leaves everything but the store of the other part alone. */
  ghost predicate Next(cat: Catalog, pc: Checker, w: Whole, mv: Move, w': Whole)
  {
    match mv
    case OnInstances(m) =>
      && !m.Bindings? && Concurrency.Next(cat, pc, InstanceView(w), m, InstanceView(w'))
      && BindingView(w') == BindingView(w).(store := w'.store)
    case OnBindings(m) =>
      && !m.Elsewhere? && Bindings.Next(BindingView(w), m, BindingView(w')) && w'.threads == w.threads
    case OnSecrets(s') => SecretChange(w.store, s') && w' == w.(store := s')
  }

  // ---------------------------------------------------------------- Bindings leave instances alone

  lemma PutUserIsBindingChange(s: State, id: string, c: Composite)
    requires VersionsOk(s)
    ensures Concurrency.BindingChange(s, Put(s, UserKey(id), c))
  {
    PutKeepsVersions(s, UserKey(id), c);
  }

  lemma BindStepWrites(s: State, b: Bindings.Binder, fault: Fault)
    ensures var s' := Bindings.BindStep(s, b, fault).state;
            || (s'.composites == s.composites && s.clock <= s'.clock && s'.strict == s.strict)
            || s' == Put(s, UserKey(b.bindingId), UserComposite(b.instance.key.name, b.parent))
  {
  }

  lemma BindStepIsBindingChange(s: State, b: Bindings.Binder, fault: Fault)
    requires VersionsOk(s)
    ensures Concurrency.BindingChange(s, Bindings.BindStep(s, b, fault).state)
  {
    BindStepWrites(s, b, fault);
    PutUserIsBindingChange(s, b.bindingId, UserComposite(b.instance.key.name, b.parent));
  }

  lemma UnbindStepWrites(s: State, u: Bindings.Unbinder, fault: Fault)
    ensures var s' := Bindings.UnbindStep(s, u.bindingId, u.point, fault).state;
            var key := UserKey(u.bindingId);
            || (s'.composites == s.composites && s.clock <= s'.clock && s'.strict == s.strict)
            || (key in s.composites && s' == Put(s, key, s.composites[key].(deleting := true)))
  {
  }

  lemma UnbindStepIsBindingChange(s: State, u: Bindings.Unbinder, fault: Fault)
    requires VersionsOk(s)
    ensures Concurrency.BindingChange(s, Bindings.UnbindStep(s, u.bindingId, u.point, fault).state)
  {
    UnbindStepWrites(s, u, fault);
    if UserKey(u.bindingId) in s.composites {
      PutUserIsBindingChange(s, u.bindingId, s.composites[UserKey(u.bindingId)].(deleting := true));
    }
  }

  lemma ComposeIsBindingChange(s: State, id: string, refs: seq<ResourceRef>)
    requires VersionsOk(s)
    ensures Concurrency.BindingChange(s, ComposeUser(s, id, refs))
  {
    if UserKey(id) in s.composites {
      PutUserIsBindingChange(s, id, s.composites[UserKey(id)].(refs := refs));
    }
  }

  lemma RemoveUserIsBindingChange(s: State, id: string)
    requires VersionsOk(s)
    ensures Concurrency.BindingChange(s, RemoveUser(s, id))
  {
  }

  lemma CollectIsBindingChange(s: State, id: string)
    requires VersionsOk(s)
    ensures Concurrency.BindingChange(s, CollectSecret(s, BindingPassword(id)))
  {
  }

  lemma FinishIsBindingChange(s: State, id: string)
    requires VersionsOk(s)
    ensures Concurrency.BindingChange(s, FinishDelete(s, id))
  {
  }

  /** Every move of bindings, their controller and their collector is one that the instances' system allows. */
  lemma BindingsAreBindingChanges(c: Bindings.System, mv: Bindings.Move, c': Bindings.System)
    requires VersionsOk(c.store) && Bindings.Next(c, mv, c') && !mv.Elsewhere?
    ensures Concurrency.BindingChange(c.store, c'.store)
  {
    match mv
    case AdvanceBind(tid, fault) => BindStepIsBindingChange(c.store, c.binders[tid], fault);
    case AdvanceUnbind(tid, fault) => UnbindStepIsBindingChange(c.store, c.unbinders[tid], fault);
    case Compose(id, refs) => ComposeIsBindingChange(c.store, id, refs);
    case DropUser(id) => RemoveUserIsBindingChange(c.store, id);
    case Collect(id) => CollectIsBindingChange(c.store, id);
    case Finish(id) => FinishIsBindingChange(c.store, id);
    case _ =>
  }

  // ---------------------------------------------------------------- Instances leave bindings alone

  lemma PutIsOutside(s: State, key: Key, c: Composite)
    requires key.gvk != SynTools(UserKind)
    ensures Bindings.OutsideBindings(s, Put(s, key, c))
  {
  }

  lemma DeleteIsOutside(s: State, key: Key)
    requires Delete(s, key).Ok? && key.gvk != SynTools(UserKind)
    ensures Bindings.OutsideBindings(s, Delete(s, key).value)
  {
  }

  lemma UserIsNoInstance(gvk: Gvk)
    requires InstanceGvk(gvk)
    ensures gvk != SynTools(UserKind)
  {
  }

  /** However the call fares. */
  lemma WriteCallIsOutside(s: State, r: Result<State>, fault: Fault)
    requires r.Ok? ==> Bindings.OutsideBindings(s, r.value)
    ensures Bindings.OutsideBindings(s, WriteCall(s, r, fault).state)
  {
  }

  lemma CreateIsOutside(s: State, w: Write, fault: Fault)
    requires InstanceGvk(w.key.gvk)
    ensures Bindings.OutsideBindings(s, WriteCall(s, Create(s, w.key, w.composite), fault).state)
  {
    UserIsNoInstance(w.key.gvk);
    PutIsOutside(s, w.key, w.composite);
    WriteCallIsOutside(s, Create(s, w.key, w.composite), fault);
  }

  lemma UpdateIsOutside(cat: Catalog, s: State, found: Found, plan: Plan, params: Params, fault: Fault)
    requires WellFormed(cat) && Concurrency.FromCatalog(cat, plan) && PlanGvk(plan).Ok?
    ensures var w := UpdateWrite(found, plan, params);
            Bindings.OutsideBindings(s, WriteCall(s, Store.Update(s, w.key, w.composite), fault).state)
  {
    Concurrency.PlanGvkIsInstanceGvk(cat, plan);
    var w := UpdateWrite(found, plan, params);
    UserIsNoInstance(w.key.gvk);
    PutIsOutside(s, w.key, w.composite);
    WriteCallIsOutside(s, Store.Update(s, w.key, w.composite), fault);
  }

  lemma DeleteCallIsOutside(s: State, key: Key, fault: Fault)
    requires InstanceGvk(key.gvk)
    ensures Bindings.OutsideBindings(s, WriteCall(s, Delete(s, key), fault).state)
  {
    UserIsNoInstance(key.gvk);
    if Delete(s, key).Ok? {
      DeleteIsOutside(s, key);
    }
    WriteCallIsOutside(s, Delete(s, key), fault);
  }

  lemma StepIsOutside(cat: Catalog, pc: Checker, s: State, req: Request, point: Point, fault: Fault)
    requires WellFormed(cat) && Proper(req, point) && Concurrency.PointOk(cat, pc, s, point)
    ensures Bindings.OutsideBindings(s, Step(cat, pc, req, point, s, fault).state)
  {
    match point
    case CallCreate(w) => CreateIsOutside(s, w, fault);
    case CallUpdate(found, plan, params) => UpdateIsOutside(cat, s, found, plan, params, fault);
    case CallDelete(key) => DeleteCallIsOutside(s, key, fault);
    case _ =>
  }

  /** Every move of instance requests and their controller is one that the bindings' system allows. */
  lemma InstancesAreOutside(cat: Catalog, pc: Checker, c: Concurrency.Config, mv: Concurrency.Move,
                            c': Concurrency.Config)
    requires WellFormed(cat) && Concurrency.Inv(cat, pc, c) && Concurrency.Next(cat, pc, c, mv, c') && !mv.Bindings?
    ensures Bindings.OutsideBindings(c.store, c'.store)
  {
    match mv
    case Advance(tid, fault) => StepIsOutside(cat, pc, c.store, c.threads[tid].request, c.threads[tid].point, fault);
    case _ =>
  }

  // ---------------------------------------------------------------- Both parts see runs of their own

  /** How the instances' system sees a move. */
  function InstanceMove(mv: Move, w': Whole): Concurrency.Move
  {
    if mv.OnInstances? then mv.instances else Concurrency.Move.Bindings(w'.store)
  }

  /** How the bindings' system sees a move. */
  function BindingMove(mv: Move, w': Whole): Bindings.Move
  {
    if mv.OnBindings? then mv.bindings else Bindings.Elsewhere(w'.store)
  }

  lemma NextIsInstances(cat: Catalog, pc: Checker, w: Whole, mv: Move, w': Whole)
    requires Concurrency.Inv(cat, pc, InstanceView(w)) && Next(cat, pc, w, mv, w')
    ensures Concurrency.Next(cat, pc, InstanceView(w), InstanceMove(mv, w'), InstanceView(w'))
  {
    if mv.OnBindings? {
      BindingsAreBindingChanges(BindingView(w), mv.bindings, BindingView(w'));
    }
  }

  lemma NextIsBindings(cat: Catalog, pc: Checker, w: Whole, mv: Move, w': Whole)
    requires WellFormed(cat) && Concurrency.Inv(cat, pc, InstanceView(w)) && Next(cat, pc, w, mv, w')
    ensures Bindings.Next(BindingView(w), BindingMove(mv, w'), BindingView(w'))
  {
    if mv.OnInstances? {
      InstancesAreOutside(cat, pc, InstanceView(w), mv.instances, InstanceView(w'));
    }
  }

  ghost predicate IsRun(cat: Catalog, pc: Checker, trace: seq<Whole>, moves: seq<Move>)
  {
    && |trace| == |moves| + 1
    && forall i :: 0 <= i < |moves| ==> Next(cat, pc, trace[i], moves[i], trace[i + 1])
  }

  ghost predicate Initial(w: Whole)
  {
    Concurrency.InitialConfig(InstanceView(w)) && Bindings.Initial(BindingView(w))
  }

  function InstanceTrace(trace: seq<Whole>): seq<Concurrency.Config>
  {
    seq(|trace|, i requires 0 <= i < |trace| => InstanceView(trace[i]))
  }

  function BindingTrace(trace: seq<Whole>): seq<Bindings.System>
  {
    seq(|trace|, i requires 0 <= i < |trace| => BindingView(trace[i]))
  }

  function InstanceMoves(trace: seq<Whole>, moves: seq<Move>): seq<Concurrency.Move>
    requires |trace| == |moves| + 1
  {
    seq(|moves|, i requires 0 <= i < |moves| => InstanceMove(moves[i], trace[i + 1]))
  }

  function BindingMoves(trace: seq<Whole>, moves: seq<Move>): seq<Bindings.Move>
    requires |trace| == |moves| + 1
  {
    seq(|moves|, i requires 0 <= i < |moves| => BindingMove(moves[i], trace[i + 1]))
  }

  lemma {:induction false} RunInv(cat: Catalog, pc: Checker, trace: seq<Whole>, moves: seq<Move>, i: nat)
    requires WellFormed(cat) && IsRun(cat, pc, trace, moves) && Initial(trace[0]) && i < |trace|
    ensures Concurrency.Inv(cat, pc, InstanceView(trace[i]))
  {
    if i == 0 {
      Concurrency.InitialConfigInv(cat, pc, InstanceView(trace[0]));
    } else {
      RunInv(cat, pc, trace, moves, i - 1);
      NextIsInstances(cat, pc, trace[i - 1], moves[i - 1], trace[i]);
      var e := Concurrency.NextOk(cat, pc, InstanceView(trace[i - 1]), InstanceMove(moves[i - 1], trace[i]),
                                  InstanceView(trace[i]));
    }
  }

  /** Every run of the whole, seen by either part, is a run of that part. */
  lemma RunsProject(cat: Catalog, pc: Checker, trace: seq<Whole>, moves: seq<Move>)
    requires WellFormed(cat) && IsRun(cat, pc, trace, moves) && Initial(trace[0])
    ensures Concurrency.IsRun(cat, pc, InstanceTrace(trace), InstanceMoves(trace, moves))
    ensures BindingRuns.IsRun(BindingTrace(trace), BindingMoves(trace, moves))
    ensures Concurrency.InitialConfig(InstanceTrace(trace)[0]) && Bindings.Initial(BindingTrace(trace)[0])
  {
    forall i | 0 <= i < |moves|
      ensures Concurrency.StepAt(cat, pc, InstanceTrace(trace), InstanceMoves(trace, moves), i)
      ensures BindingRuns.StepAt(BindingTrace(trace), BindingMoves(trace, moves), i)
    {
      RunInv(cat, pc, trace, moves, i);
      NextIsInstances(cat, pc, trace[i], moves[i], trace[i + 1]);
      NextIsBindings(cat, pc, trace[i], moves[i], trace[i + 1]);
    }
  }

  lemma WholeLivesOn(cat: Catalog, pc: Checker, trace: seq<Whole>, moves: seq<Move>, i: nat, j: nat, key: Key)
    requires WellFormed(cat) && IsRun(cat, pc, trace, moves) && Initial(trace[0]) && i <= j < |trace|
    requires InstanceGvk(key.gvk) && forall m :: i <= m <= j ==> key in trace[m].store.composites
    ensures Concurrency.LivesOn(pc, trace[i].store.composites[key], trace[j].store.composites[key])
  {
    RunsProject(cat, pc, trace, moves);
    Concurrency.LifeOfAnInstance(cat, pc, InstanceTrace(trace), InstanceMoves(trace, moves), key, i, j);
  }

  /** In the whole system, all clients of bindings being disciplined: every state has well-formed instances,
      honest snapshots and safe bindings, and an instance lives on as the rules allow. */
  lemma WholeIsSafe(cat: Catalog, pc: Checker, trace: seq<Whole>, moves: seq<Move>, i: nat, j: nat, key: Key)
    requires WellFormed(cat) && IsRun(cat, pc, trace, moves) && Initial(trace[0]) && i <= j < |trace|
    requires BindingRuns.ClientsBehave(BindingTrace(trace), BindingMoves(trace, moves))
    ensures Concurrency.Inv(cat, pc, InstanceView(trace[j])) && BindingSafety.Safe(BindingView(trace[j]))
    ensures InstanceGvk(key.gvk) && (forall m :: i <= m <= j ==> key in trace[m].store.composites) ==>
              Concurrency.LivesOn(pc, trace[i].store.composites[key], trace[j].store.composites[key])
  {
    RunsProject(cat, pc, trace, moves);
    RunInv(cat, pc, trace, moves, j);
    BindingRuns.RunIsSafe(BindingTrace(trace), BindingMoves(trace, moves), j);
    if InstanceGvk(key.gvk) && (forall m :: i <= m <= j ==> key in trace[m].store.composites) {
      WholeLivesOn(cat, pc, trace, moves, i, j, key);
    }
  }
}
