/** Binding and unbinding databases as small-step programs, together with the controller that creates Users
    and the garbage collector. Any number of requests interleave and every call may fail. */
module Bindings {
  import opened Types
  import opened Metadata
  import opened Store
  import opened Requests
  import opened Interleaving

  // ---------------------------------------------------------------- Requests

  datatype BindPoint =
    | GetCluster
    | CreatePassword(cluster: Composite)
    | CreateUser(cluster: Composite)
    | GetConnection(cluster: Composite)
    | GetLabelParent(endpoint: Endpoint)
    | BindDone(credentials: Result<Credentials>)

  /** `stamp` is the uid of the secret this Bind created, if its creation took effect. */
  datatype Binder = Binder(bindingId: string, instance: Instance, parent: string, password: string, stamp: Option<nat>,
                           point: BindPoint)

  datatype UnbindPoint =
    | GetUserComposite
    | GetPassword(user: string)
    | GetUser(user: string, secret: Secret)
    | UpdatePassword(user: string, secret: Secret)
    | DeleteUserComposite(user: string)
    | UnbindDone(result: Result<()>)

  datatype Unbinder = Unbinder(bindingId: string, point: UnbindPoint)

  function StartBind(bindingId: string, instance: Instance, password: string): Binder
  {
    match ParentRef(instance.composite.params)
    case Err(e) => Binder(bindingId, instance, "", password, None, BindDone(Err(e)))
    case Ok(parent) => Binder(bindingId, instance, parent, password, None, GetCluster)
  }

  function StartUnbind(bindingId: string): Unbinder
  {
    Unbinder(bindingId, GetUserComposite)
  }

  // ---------------------------------------------------------------- Steps

  datatype BindStepped = BindStepped(state: State, binder: Binder)

  function FailBind(b: Binder, e: Error): Binder
  {
    b.(point := BindDone(Err(e)))
  }

  /** A read that fails for whatever reason ends the Bind. */
  function BindRead(s: State, b: Binder): Binder
  {
    match b.point
    case GetCluster =>
      (match Get(s, Key(SynTools(MariaDBKind), b.parent))
       case Err(e) => FailBind(b, e)
       case Ok(cluster) => b.(point := CreatePassword(cluster)))
    case GetConnection(cluster) =>
      (match ConnectionDetails(s, cluster)
       case Err(e) => FailBind(b, if e == NotFound then InstanceNotReady else e)
       case Ok(secret) =>
         match MapEndpoint(secret.data)
         case Err(e) => FailBind(b, e)
         case Ok(endpoint) => b.(point := GetLabelParent(endpoint)))
    case GetLabelParent(endpoint) =>
      (match Get(s, Key(SynTools(MariaDBKind), b.instance.labels.parentId))
       case Err(e) => FailBind(b, e)
       case Ok(parent) =>
         b.(point := BindDone(Ok(Credentials(endpoint.host, endpoint.port, b.bindingId, b.password, b.instance.key.name,
                                             b.instance.labels.parentId, Text(parent.labels, ClusterLabel))))))
    case _ => b
  }

  function BindStep(s: State, b: Binder, fault: Fault): BindStepped
  {
    match b.point
    case BindDone(_) => BindStepped(s, b)
    case CreatePassword(cluster) =>
      if fault.LostRequest? then BindStepped(s, FailBind(b, CallFailed))
      else
        (match CreateSecret(s, BindingPassword(b.bindingId), map[PasswordKey := b.password])
         case Err(e) => BindStepped(s, FailBind(b, if fault.LostReply? then CallFailed else e))
         case Ok(s') =>
           var stamped := b.(stamp := Some(s.clock));
           BindStepped(s', if fault.LostReply? then FailBind(stamped, CallFailed)
                       else stamped.(point := CreateUser(cluster))))
    case CreateUser(cluster) =>
      if fault.LostRequest? then BindStepped(s, FailBind(b, CallFailed))
      else
        (match Create(s, UserKey(b.bindingId), UserComposite(b.instance.key.name, b.parent))
         case Ok(s') => BindStepped(s', if fault.LostReply? then FailBind(b, CallFailed)
                                    else b.(point := GetConnection(cluster)))
         case Err(e) =>
           BindStepped(s, if fault.LostReply? then FailBind(b, CallFailed)
                          else if e == AlreadyExists then b.(point := GetConnection(cluster))
                          else FailBind(b, e)))
    case _ => BindStepped(s, if fault.NoFault? then BindRead(s, b) else FailBind(b, CallFailed))
  }

  datatype UnbindStepped = UnbindStepped(state: State, point: UnbindPoint)

  function UnbindRead(s: State, bindingId: string, point: UnbindPoint): UnbindPoint
  {
    match point
    case GetUserComposite =>
      (match Get(s, UserKey(bindingId))
       case Err(e) => UnbindDone(Err(e))
       case Ok(c) =>
         match LastUser(c.refs)
         case None => UnbindDone(Err(NoUserInComposite))
         case Some(user) => GetPassword(user))
    case GetPassword(user) =>
      (match GetSecret(s, BindingPassword(bindingId))
       case Err(e) => UnbindDone(Err(e))
       case Ok(secret) => GetUser(user, secret))
    case GetUser(user, secret) => if user in s.users then UpdatePassword(user, secret) else UnbindDone(Err(NotFound))
    case _ => point
  }

  function UnbindWrite(s: State, r: Result<State>, fault: Fault, next: UnbindPoint): UnbindStepped
  {
    match fault
    case LostRequest => UnbindStepped(s, UnbindDone(Err(CallFailed)))
    case LostReply => UnbindStepped(if r.Ok? then r.value else s, UnbindDone(Err(CallFailed)))
    case NoFault => match r case Err(e) => UnbindStepped(s, UnbindDone(Err(e))) case Ok(s') => UnbindStepped(s', next)
  }

  function UnbindStep(s: State, bindingId: string, point: UnbindPoint, fault: Fault): UnbindStepped
  {
    match point
    case UnbindDone(_) => UnbindStepped(s, point)
    case UpdatePassword(user, secret) =>
      UnbindWrite(s, UpdateSecret(s, BindingPassword(bindingId), secret.(owner := Some(user))), fault,
                  DeleteUserComposite(user))
    case DeleteUserComposite(_) => UnbindWrite(s, DeleteForeground(s, UserKey(bindingId)), fault, UnbindDone(Ok(())))
    case _ => UnbindStepped(s, if fault.NoFault? then UnbindRead(s, bindingId, point) else UnbindDone(Err(CallFailed)))
  }

  // ---------------------------------------------------------------- The system

  /** `retired` are the binding ids whose password secret has been collected, `gone` those whose composite
      has been removed, and `named` all names ever given to Users. */
  datatype System = System(store: State, binders: map<nat, Binder>, unbinders: map<nat, Unbinder>, retired: set<string>,
                           gone: set<string>, named: set<string>)

  datatype Move =
    | SpawnBind(tid: nat, bindingId: string, instance: Instance, password: string)
    | SpawnUnbind(tid: nat, bindingId: string)
    | AdvanceBind(tid: nat, fault: Fault)
    | AdvanceUnbind(tid: nat, fault: Fault)
    | Compose(bindingId: string, refs: seq<ResourceRef>)
    | DropUser(bindingId: string)
    | Collect(bindingId: string)
    | Finish(bindingId: string)
    | Elsewhere(after: State)

  /** A user composite without its status, which the controller rewrites at any time. */
  function WithoutStatus(c: Composite): Composite
  {
    c.(ready := false, connection := None, version := 0)
  }

  /** Anything may happen to objects that are neither user composites, nor binding passwords, nor Users; and the
      controller may rewrite the status of user composites. */
  ghost predicate OutsideBindings(s: State, s': State)
  {
    && s.clock <= s'.clock && s.users == s'.users
    && (forall b: string :: (UserKey(b) in s.composites <==> UserKey(b) in s'.composites)
                            && (UserKey(b) in s.composites ==>
                                  WithoutStatus(s.composites[UserKey(b)]) == WithoutStatus(s'.composites[UserKey(b)])))
    && (forall b: string :: (BindingPassword(b) in s.secrets <==> BindingPassword(b) in s'.secrets)
                            && (BindingPassword(b) in s.secrets ==>
                                  s.secrets[BindingPassword(b)] == s'.secrets[BindingPassword(b)]))
  }

  ghost predicate Next(c: System, mv: Move, c': System)
  {
    match mv
    case SpawnBind(tid, bindingId, instance, password) =>
      tid !in c.binders && c' == c.(binders := c.binders[tid := StartBind(bindingId, instance, password)])
    case SpawnUnbind(tid, bindingId) =>
      tid !in c.unbinders && c' == c.(unbinders := c.unbinders[tid := StartUnbind(bindingId)])
    case AdvanceBind(tid, fault) =>
      && tid in c.binders
      && var st := BindStep(c.store, c.binders[tid], fault);
         c' == c.(store := st.state, binders := c.binders[tid := st.binder])
    case AdvanceUnbind(tid, fault) =>
      && tid in c.unbinders
      && var u := c.unbinders[tid];
         var st := UnbindStep(c.store, u.bindingId, u.point, fault);
         c' == c.(store := st.state, unbinders := c.unbinders[tid := u.(point := st.point)])
    case Compose(bindingId, refs) =>
      && LastUser(refs).Some? && LastUser(refs).value !in c.named
      && c' == c.(store := ComposeUser(c.store, bindingId, refs), named := c.named + {LastUser(refs).value})
    case DropUser(bindingId) => c' == c.(store := RemoveUser(c.store, bindingId))
    case Collect(bindingId) =>
      && Collectable(c.store, BindingPassword(bindingId))
      && c' == c.(store := CollectSecret(c.store, BindingPassword(bindingId)), retired := c.retired + {bindingId})
    case Finish(bindingId) =>
      && Finishable(c.store, bindingId)
      && c' == c.(store := FinishDelete(c.store, bindingId), gone := c.gone + {bindingId})
    case Elsewhere(s') => OutsideBindings(c.store, s') && c' == c.(store := s')
  }

  /** The Bind has not yet tried to create its secret. */
  predicate BeforeSecret(b: Binder)
  {
    b.point.GetCluster? || b.point.CreatePassword?
  }

  /** A client does not send a Bind for a binding id once it has sent an Unbind for it. */
  predicate BindsFirst(c: System, mv: Move)
  {
    mv.SpawnBind? ==> forall t :: t in c.unbinders ==> c.unbinders[t].bindingId != mv.bindingId
  }

  /** A client does not send an Unbind for a binding id while a Bind for it is still before its first write; a
      client that waits for its Binds to be answered meets this. */
  predicate UnbindsAfter(c: System, mv: Move)
  {
    mv.SpawnUnbind? ==>
      forall t :: t in c.binders && c.binders[t].bindingId == mv.bindingId ==> !BeforeSecret(c.binders[t])
  }

  /** What clients have to observe for binding ids not to be reused. Both halves are needed. */
  predicate Disciplined(c: System, mv: Move)
  {
    BindsFirst(c, mv) && UnbindsAfter(c, mv)
  }

  /** No Bind creates a password for an id whose password has been collected. */
  predicate NoReuse(c: System, mv: Move)
  {
    mv.AdvanceBind? && mv.tid in c.binders && c.binders[mv.tid].point.CreatePassword? ==>
      c.binders[mv.tid].bindingId !in c.retired
  }

  ghost predicate Initial(c: System)
  {
    && c.binders == map[] && c.unbinders == map[] && c.retired == {} && c.gone == {} && c.named == c.store.users
    && (forall b: string :: UserKey(b) !in c.store.composites)
    && (forall b: string :: BindingPassword(b) !in c.store.secrets)
  }

  // ---------------------------------------------------------------- What holds even when ids are reused

  ghost predicate SecretFresh(s: State, secret: Secret)
  {
    secret.uid < s.clock && secret.version < s.clock
  }

  /** The password this Bind holds is the one in the secret it created, while that secret exists. */
  ghost predicate StampOk(s: State, b: Binder)
  {
    && (b.point.GetCluster? || b.point.CreatePassword? ==> b.stamp.None?)
    && (b.point.CreateUser? || b.point.GetConnection? || b.point.GetLabelParent? ==> b.stamp.Some?)
    && (b.point.BindDone? && b.point.credentials.Ok? ==>
          b.stamp.Some? && b.point.credentials.value.password == b.password)
    && (b.stamp.Some? ==> b.stamp.value < s.clock)
    && (b.stamp.Some? ==>
          forall id: string ::
            BindingPassword(id) in s.secrets && s.secrets[BindingPassword(id)].uid == b.stamp.value ==>
            id == b.bindingId && s.secrets[BindingPassword(id)].data == map[PasswordKey := b.password])
  }

  /** A fetched secret is the stored one as long as the version is the same. */
  ghost predicate SecretSnapshotOk(s: State, id: string, secret: Secret)
  {
    && secret.version < s.clock
    && (BindingPassword(id) in s.secrets && s.secrets[BindingPassword(id)].version == secret.version ==>
          s.secrets[BindingPassword(id)] == secret)
  }

  ghost predicate FetchOk(s: State, u: Unbinder)
  {
    u.point.GetUser? || u.point.UpdatePassword? ==> SecretSnapshotOk(s, u.bindingId, u.point.secret)
  }

  ghost predicate DistinctStamps(binders: map<nat, Binder>)
  {
    forall t, r :: t in binders && r in binders && t != r && binders[t].stamp.Some? ==>
                     binders[t].stamp != binders[r].stamp
  }

  ghost predicate Base(c: System)
  {
    && (forall id: string :: BindingPassword(id) in c.store.secrets ==>
          SecretFresh(c.store, c.store.secrets[BindingPassword(id)]))
    && (forall t :: t in c.binders ==> StampOk(c.store, c.binders[t]))
    && (forall t :: t in c.unbinders ==> FetchOk(c.store, c.unbinders[t]))
    && DistinctStamps(c.binders)
  }

  /** Each binding secret of the later store is one of the earlier store with the same uid and data, and
      unchanged unless its version is new, or is new altogether. */
  ghost predicate SecretsEvolve(s: State, s': State)
  {
    && s.clock <= s'.clock
    && forall id: string :: BindingPassword(id) in s'.secrets ==>
         var now := s'.secrets[BindingPassword(id)];
         && SecretFresh(s', now)
         && ((BindingPassword(id) in s.secrets && s.secrets[BindingPassword(id)] == now)
             || (now.version >= s.clock
                 && (now.uid >= s.clock
                     || (BindingPassword(id) in s.secrets && s.secrets[BindingPassword(id)].uid == now.uid
                         && s.secrets[BindingPassword(id)].data == now.data))))
  }

  lemma StampSurvives(s: State, s': State, b: Binder)
    requires StampOk(s, b) && SecretsEvolve(s, s')
    ensures StampOk(s', b)
  {
  }

  lemma FetchSurvives(s: State, s': State, u: Unbinder)
    requires FetchOk(s, u) && SecretsEvolve(s, s')
    ensures FetchOk(s', u)
  {
  }

  lemma EvolutionKeepsBase(c: System, s': State)
    requires Base(c) && SecretsEvolve(c.store, s')
    ensures Base(c.(store := s'))
  {
    forall t | t in c.binders ensures StampOk(s', c.binders[t]) {
      StampSurvives(c.store, s', c.binders[t]);
    }
    forall t | t in c.unbinders ensures FetchOk(s', c.unbinders[t]) {
      FetchSurvives(c.store, s', c.unbinders[t]);
    }
  }

  ghost predicate SecretsFresh(s: State)
  {
    forall id: string :: BindingPassword(id) in s.secrets ==> SecretFresh(s, s.secrets[BindingPassword(id)])
  }

  lemma BindStepEvolves(s: State, b: Binder, fault: Fault)
    requires StampOk(s, b) && SecretsFresh(s)
    ensures var st := BindStep(s, b, fault);
            && SecretsEvolve(s, st.state) && StampOk(st.state, st.binder) && st.binder.bindingId == b.bindingId
            && (st.binder.stamp == b.stamp || (b.stamp.None? && st.binder.stamp == Some(s.clock)))
  {
    match b.point
    case CreatePassword(_) => CreatePasswordEvolves(s, b, fault);
    case CreateUser(_) => CreateUserEvolves(s, b, fault);
    case _ => BindReadEvolves(s, b);
  }

  lemma CreateUserEvolves(s: State, b: Binder, fault: Fault)
    requires StampOk(s, b) && SecretsFresh(s) && b.point.CreateUser?
    ensures var st := BindStep(s, b, fault);
            && SecretsEvolve(s, st.state) && StampOk(st.state, st.binder) && st.binder.bindingId == b.bindingId
            && st.binder.stamp == b.stamp
  {
  }

  lemma BindReadEvolves(s: State, b: Binder)
    requires StampOk(s, b) && !b.point.CreatePassword? && !b.point.CreateUser?
    ensures StampOk(s, BindRead(s, b)) && BindRead(s, b).bindingId == b.bindingId && BindRead(s, b).stamp == b.stamp
  {
  }

  lemma CreatePasswordEvolves(s: State, b: Binder, fault: Fault)
    requires StampOk(s, b) && SecretsFresh(s) && b.point.CreatePassword?
    ensures var st := BindStep(s, b, fault);
            && SecretsEvolve(s, st.state) && StampOk(st.state, st.binder) && st.binder.bindingId == b.bindingId
            && (st.binder.stamp == b.stamp || st.binder.stamp == Some(s.clock))
  {
  }

  lemma UnbindStepEvolves(s: State, u: Unbinder, fault: Fault)
    requires FetchOk(s, u) && SecretsFresh(s)
    ensures var st := UnbindStep(s, u.bindingId, u.point, fault);
            && SecretsEvolve(s, st.state) && FetchOk(st.state, u.(point := st.point))
  {
  }

  lemma EnvironmentEvolves(c: System, mv: Move, c': System)
    requires Next(c, mv, c') && SecretsFresh(c.store)
    requires mv.Compose? || mv.DropUser? || mv.Collect? || mv.Finish? || mv.Elsewhere?
    ensures SecretsEvolve(c.store, c'.store)
  {
  }

  /** Every move keeps the base invariant, whether ids are reused or not. */
  lemma NextKeepsBase(c: System, mv: Move, c': System)
    requires Base(c) && Next(c, mv, c')
    ensures Base(c')
  {
    match mv
    case SpawnBind(_, _, _, _) =>
    case SpawnUnbind(_, _) =>
    case AdvanceBind(tid, fault) => BindKeepsBase(c, tid, fault, c');
    case AdvanceUnbind(tid, fault) =>
      UnbindStepEvolves(c.store, c.unbinders[tid], fault);
      EvolutionKeepsBase(c, c'.store);
    case _ =>
      EnvironmentEvolves(c, mv, c');
      EvolutionKeepsBase(c, c'.store);
  }

  lemma BindKeepsBase(c: System, tid: nat, fault: Fault, c': System)
    requires Base(c) && Next(c, AdvanceBind(tid, fault), c')
    ensures Base(c')
  {
    BindStepEvolves(c.store, c.binders[tid], fault);
    EvolutionKeepsBase(c, c'.store);
    StampsStayDistinct(c, tid, BindStep(c.store, c.binders[tid], fault).binder);
  }

  lemma StampsStayDistinct(c: System, tid: nat, b: Binder)
    requires Base(c) && tid in c.binders
    requires b.stamp == c.binders[tid].stamp || b.stamp == Some(c.store.clock)
    ensures DistinctStamps(c.binders[tid := b])
  {
    forall t | t in c.binders ensures c.binders[t].stamp != Some(c.store.clock) {
      assert StampOk(c.store, c.binders[t]);
    }
  }
}
