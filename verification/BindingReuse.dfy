/** The life of a binding id: once its secret exists no Bind succeeds; once everything is collected no trace is
    left, and a Bind can succeed again. That is why clients must not reuse ids, nor unbind too early. */
module BindingReuse {
  import opened Types
  import opened Store
  import opened Requests
  import opened Interleaving
  import opened Bindings
  import opened BindingCreators
  import opened BindingRuns
  import opened Admission

  // ---------------------------------------------------------------- As long as the secret is there

  lemma SecretStays(c: System, mv: Move, c': System, id: string)
    requires Next(c, mv, c') && StoredOrRetired(c, id)
    ensures StoredOrRetired(c', id)
  {
  }

  lemma SecretStaysAt(trace: seq<System>, moves: seq<Move>, i: nat, id: string)
    requires IsRun(trace, moves) && i < |moves| && StoredOrRetired(trace[i], id)
    ensures StoredOrRetired(trace[i + 1], id)
  {
    assert StepAt(trace, moves, i);
    SecretStays(trace[i], moves[i], trace[i + 1], id);
  }

  lemma {:induction false} SecretStaysStored(trace: seq<System>, moves: seq<Move>, i: nat, j: nat, id: string)
    requires IsRun(trace, moves) && i <= j < |trace| && StoredOrRetired(trace[i], id)
    ensures StoredOrRetired(trace[j], id)
    decreases j
  {
    if i < j {
      SecretStaysStored(trace, moves, i, j - 1, id);
      SecretStaysAt(trace, moves, j - 1, id);
    }
  }

  /** From the moment a binding's secret exists, whatever happens, no Bind with that id succeeds or changes
      anything, until the secret has been collected. */
  lemma BindStaysRefused(trace: seq<System>, moves: seq<Move>, i: nat, j: nat, id: string, instance: Instance,
                         password: Result<string>)
    requires IsRun(trace, moves) && i <= j < |trace| && BindingPassword(id) in trace[i].store.secrets
    requires id !in trace[j].retired
    ensures BindDatabase(trace[j].store, instance, id, password).reply.Err?
    ensures BindDatabase(trace[j].store, instance, id, password).state == trace[j].store
  {
    SecretStaysStored(trace, moves, i, j, id);
    DatabaseBindSucceedsIff(trace[j].store, instance, id, password);
  }

  // ---------------------------------------------------------------- A binding leaves no trace

  function Refs(user: string): seq<ResourceRef>
  {
    [ResourceRef(UserRef, user)]
  }

  /** The store after a Bind and after its User has been composed. */
  function Composed(s: State, instance: Instance, id: string, password: string, user: string): State
  {
    ComposeUser(BindDatabase(s, instance, id, Ok(password)).state, id, Refs(user))
  }

  /** The garbage collector's work, in the order of foreground deletion. */
  function Collected(s: State, id: string): State
  {
    FinishDelete(CollectSecret(RemoveUser(s, id), BindingPassword(id)), id)
  }

  ghost predicate FirstBind(s: State, instance: Instance, id: string, user: string)
  {
    BindAdmits(s, instance, id) && UserKey(id) !in s.composites && user !in s.users
  }

  /** What a Bind adds and its User, in terms of the store before. */
  lemma ComposedStore(s: State, instance: Instance, id: string, password: string, user: string)
    requires FirstBind(s, instance, id, user)
    ensures var s2 := Composed(s, instance, id, password, user);
            && UserKey(id) in s2.composites && s2.composites[UserKey(id)].refs == Refs(user)
            && BindingPassword(id) in s2.secrets
            && s2.composites - {UserKey(id)} == s.composites && s2.secrets - {BindingPassword(id)} == s.secrets
            && s2.users == s.users + {user}
  {
    DatabaseBindSucceedsIff(s, instance, id, Ok(password));
    var parent := ParentRef(instance.composite.params).value;
    var s1 := BindDatabase(s, instance, id, Ok(password)).state;
    assert s1 == CreateBinding(s, id, instance.key.name, parent, Ok(password)).state;
    assert s1.composites - {UserKey(id)} == s.composites && s1.secrets - {BindingPassword(id)} == s.secrets;
    assert LastUser(Refs(user)) == Some(user);
    assert LastUser([]) == None;
    assert s1.composites[UserKey(id)].refs == [];
  }

  lemma UnboundStore(s: State, id: string, user: string)
    requires UserKey(id) in s.composites && s.composites[UserKey(id)].refs == Refs(user)
    requires BindingPassword(id) in s.secrets && user in s.users
    ensures UnbindDatabase(s, id).reply.Ok?
    ensures var s3 := UnbindDatabase(s, id).state;
            && UserKey(id) in s3.composites && s3.composites[UserKey(id)].deleting
            && s3.composites[UserKey(id)].refs == Refs(user)
            && BindingPassword(id) in s3.secrets && s3.secrets[BindingPassword(id)].owner == Some(user)
            && s3.composites - {UserKey(id)} == s.composites - {UserKey(id)}
            && s3.secrets - {BindingPassword(id)} == s.secrets - {BindingPassword(id)}
            && s3.users == s.users
  {
    assert LastUser(Refs(user)) == Some(user);
  }

  lemma CollectedStore(s: State, id: string, user: string)
    requires UserKey(id) in s.composites && s.composites[UserKey(id)].deleting
    requires s.composites[UserKey(id)].refs == Refs(user)
    requires BindingPassword(id) in s.secrets && s.secrets[BindingPassword(id)].owner == Some(user)
    ensures var s4 := RemoveUser(s, id);
            && Collectable(s4, BindingPassword(id)) && Finishable(CollectSecret(s4, BindingPassword(id)), id)
    ensures var s6 := Collected(s, id);
            && s6.composites == s.composites - {UserKey(id)} && s6.secrets == s.secrets - {BindingPassword(id)}
            && s6.users == s.users - {user}
  {
    assert LastUser(Refs(user)) == Some(user);
  }

  /** Bind, the User, Unbind and the collector together restore the objects of the store exactly. */
  lemma BindingLeavesNoTrace(s: State, instance: Instance, id: string, password: string, user: string)
    requires FirstBind(s, instance, id, user)
    ensures BindDatabase(s, instance, id, Ok(password)).reply.Ok?
    ensures UnbindDatabase(Composed(s, instance, id, password, user), id).reply.Ok?
    ensures var s3 := UnbindDatabase(Composed(s, instance, id, password, user), id).state;
            var s4 := RemoveUser(s3, id);
            && Collectable(s4, BindingPassword(id)) && Finishable(CollectSecret(s4, BindingPassword(id)), id)
            && Collected(s3, id).composites == s.composites && Collected(s3, id).secrets == s.secrets
            && Collected(s3, id).users == s.users
  {
    DatabaseBindSucceedsIff(s, instance, id, Ok(password));
    ComposedStore(s, instance, id, password, user);
    var s2 := Composed(s, instance, id, password, user);
    UnboundStore(s2, id, user);
    CollectedStore(UnbindDatabase(s2, id).state, id, user);
  }

  // ---------------------------------------------------------------- Extending runs

  /** The two halves of what clients have to observe. */
  datatype Half = BindsComeFirst | UnbindsComeAfter

  predicate Observes(half: Half, c: System, mv: Move)
  {
    match half
    case BindsComeFirst => BindsFirst(c, mv)
    case UnbindsComeAfter => UnbindsAfter(c, mv)
  }

  /** A run in which clients observe one half. */
  ghost predicate HalfRun(half: Half, trace: seq<System>, moves: seq<Move>)
  {
    IsRun(trace, moves) && forall i :: 0 <= i < |moves| ==> Observes(half, trace[i], moves[i])
  }

  function Last(trace: seq<System>): System
    requires trace != []
  {
    trace[|trace| - 1]
  }

  lemma Extend(half: Half, trace: seq<System>, moves: seq<Move>, mv: Move, c: System)
    returns (trace': seq<System>, moves': seq<Move>)
    requires HalfRun(half, trace, moves) && Next(Last(trace), mv, c) && Observes(half, Last(trace), mv)
    ensures HalfRun(half, trace', moves') && trace'[0] == trace[0] && Last(trace') == c
  {
    trace', moves' := trace + [c], moves + [mv];
    forall i | 0 <= i < |moves'|
      ensures StepAt(trace', moves', i) && Observes(half, trace'[i], moves'[i])
    {
      if i < |moves| {
        assert StepAt(trace, moves, i);
        assert trace'[i] == trace[i] && trace'[i + 1] == trace[i + 1] && moves'[i] == moves[i];
      }
    }
  }

  /** A Bind can be left to run alone to its end. */
  lemma {:induction false} FinishBind(half: Half, trace: seq<System>, moves: seq<Move>, tid: nat)
    returns (trace': seq<System>, moves': seq<Move>)
    requires HalfRun(half, trace, moves) && tid in Last(trace).binders
    ensures HalfRun(half, trace', moves') && trace'[0] == trace[0]
    ensures var done := BindAlone(Last(trace).store, Last(trace).binders[tid]);
            Last(trace') == Last(trace).(store := done.state, binders := Last(trace).binders[tid := done.binder])
    decreases BindRemaining(Last(trace).binders[tid].point)
  {
    var c := Last(trace);
    var b := c.binders[tid];
    if b.point.BindDone? {
      trace', moves' := trace, moves;
      assert c.binders[tid := b] == c.binders;
    } else {
      var st := BindStep(c.store, b, NoFault);
      var c1 := c.(store := st.state, binders := c.binders[tid := st.binder]);
      trace', moves' := Extend(half, trace, moves, AdvanceBind(tid, NoFault), c1);
      trace', moves' := FinishBind(half, trace', moves', tid);
      assert c1.binders[tid := BindAlone(c.store, b).binder] == c.binders[tid := BindAlone(c.store, b).binder];
    }
  }

  lemma {:induction false} FinishUnbind(half: Half, trace: seq<System>, moves: seq<Move>, tid: nat)
    returns (trace': seq<System>, moves': seq<Move>)
    requires HalfRun(half, trace, moves) && tid in Last(trace).unbinders
    ensures HalfRun(half, trace', moves') && trace'[0] == trace[0]
    ensures var u := Last(trace).unbinders[tid];
            var done := UnbindAlone(Last(trace).store, u.bindingId, u.point);
            Last(trace') == Last(trace).(store := done.state,
                                         unbinders := Last(trace).unbinders[tid := u.(point := done.point)])
    decreases UnbindRemaining(Last(trace).unbinders[tid].point)
  {
    var c := Last(trace);
    var u := c.unbinders[tid];
    if u.point.UnbindDone? {
      trace', moves' := trace, moves;
      assert c.unbinders[tid := u] == c.unbinders;
    } else {
      var st := UnbindStep(c.store, u.bindingId, u.point, NoFault);
      var c1 := c.(store := st.state, unbinders := c.unbinders[tid := u.(point := st.point)]);
      trace', moves' := Extend(half, trace, moves, AdvanceUnbind(tid, NoFault), c1);
      trace', moves' := FinishUnbind(half, trace', moves', tid);
      var done := u.(point := UnbindAlone(c.store, u.bindingId, u.point).point);
      assert c1.unbinders[tid := done] == c.unbinders[tid := done];
    }
  }

  /** The collector works through a binding marked for deletion. */
  lemma Collecting(half: Half, trace: seq<System>, moves: seq<Move>, id: string)
    returns (trace': seq<System>, moves': seq<Move>)
    requires HalfRun(half, trace, moves)
    requires var s4 := RemoveUser(Last(trace).store, id);
             Collectable(s4, BindingPassword(id)) && Finishable(CollectSecret(s4, BindingPassword(id)), id)
    ensures HalfRun(half, trace', moves') && trace'[0] == trace[0]
    ensures Last(trace').store == Collected(Last(trace).store, id) && Last(trace').binders == Last(trace).binders
    ensures Last(trace').unbinders == Last(trace).unbinders
  {
    var c := Last(trace);
    var c4 := c.(store := RemoveUser(c.store, id));
    var c5 := c4.(store := CollectSecret(c4.store, BindingPassword(id)), retired := c4.retired + {id});
    var c6 := c5.(store := FinishDelete(c5.store, id), gone := c5.gone + {id});
    trace', moves' := Extend(half, trace, moves, DropUser(id), c4);
    trace', moves' := Extend(half, trace', moves', Collect(id), c5);
    trace', moves' := Extend(half, trace', moves', Finish(id), c6);
  }

  /** An Unbind is sent and runs alone to its end. */
  lemma Unbinding(half: Half, trace: seq<System>, moves: seq<Move>, id: string)
    returns (trace': seq<System>, moves': seq<Move>)
    requires HalfRun(half, trace, moves) && 0 !in Last(trace).unbinders
    requires Observes(half, Last(trace), SpawnUnbind(0, id))
    ensures HalfRun(half, trace', moves') && trace'[0] == trace[0]
    ensures Last(trace').store == UnbindDatabase(Last(trace).store, id).state
    ensures Last(trace').binders == Last(trace).binders
  {
    var c := Last(trace);
    var c1 := c.(unbinders := c.unbinders[0 := StartUnbind(id)]);
    trace', moves' := Extend(half, trace, moves, SpawnUnbind(0, id), c1);
    trace', moves' := FinishUnbind(half, trace', moves', 0);
    UnbindAloneIsAtomic(c.store, id);
  }

  // ---------------------------------------------------------------- A whole binding, from Bind to the last trace

  /** Bind 0 has been sent and has done nothing yet; nobody has unbound anything. */
  ghost predicate BindSent(c: System, instance: Instance, id: string, password: string, user: string)
  {
    && 0 in c.binders && c.binders[0] == StartBind(id, instance, password) && c.unbinders == map[]
    && FirstBind(c.store, instance, id, user) && user !in c.named
  }

  lemma BindAndCompose(half: Half, trace: seq<System>, moves: seq<Move>, instance: Instance, id: string,
                       password: string, user: string)
    returns (trace': seq<System>, moves': seq<Move>, a: Credentials)
    requires HalfRun(half, trace, moves) && BindSent(Last(trace), instance, id, password, user)
    ensures HalfRun(half, trace', moves') && trace'[0] == trace[0]
    ensures Last(trace').store == Composed(Last(trace).store, instance, id, password, user)
    ensures Last(trace').unbinders == map[] && Returned(Last(trace'), 0, a)
    ensures Last(trace').binders[0].bindingId == id
    ensures Last(trace').binders == Last(trace).binders[0 := Last(trace').binders[0]]
  {
    var c := Last(trace);
    trace', moves' := FinishBind(half, trace, moves, 0);
    var c1 := Last(trace');
    BindAloneIsAtomic(c.store, id, instance, password);
    BindAloneKeepsId(c.store, c.binders[0]);
    DatabaseBindSucceedsIff(c.store, instance, id, Ok(password));
    a := BindDatabase(c.store, instance, id, Ok(password)).reply.value;
    assert LastUser(Refs(user)) == Some(user);
    var c2 := c1.(store := ComposeUser(c1.store, id, Refs(user)), named := c1.named + {user});
    trace', moves' := Extend(half, trace', moves', Compose(id, Refs(user)), c2);
  }

  /** Bind 0 returns, is unbound, and everything is collected. */
  lemma WholeBinding(half: Half, trace: seq<System>, moves: seq<Move>, instance: Instance, id: string,
                     password: string, user: string)
    returns (trace': seq<System>, moves': seq<Move>, a: Credentials)
    requires HalfRun(half, trace, moves) && BindSent(Last(trace), instance, id, password, user)
    requires half.UnbindsComeAfter? ==>
               forall t :: t in Last(trace).binders && t != 0 ==> Last(trace).binders[t].bindingId != id
    ensures HalfRun(half, trace', moves') && trace'[0] == trace[0]
    ensures Last(trace').store.composites == Last(trace).store.composites
    ensures Last(trace').store.secrets == Last(trace).store.secrets
    ensures Returned(Last(trace'), 0, a) && Last(trace').binders[0].bindingId == id
    ensures Last(trace').binders == Last(trace).binders[0 := Last(trace').binders[0]]
  {
    BindingLeavesNoTrace(Last(trace).store, instance, id, password, user);
    trace', moves', a := BindAndCompose(half, trace, moves, instance, id, password, user);
    trace', moves' := Unbinding(half, trace', moves', id);
    trace', moves' := Collecting(half, trace', moves', id);
  }

  // ---------------------------------------------------------------- Both halves are needed

  /** A system before the first request, in which a Bind of this instance will succeed. */
  ghost predicate ReadyToBind(c: System, instance: Instance, id: string, user: string)
  {
    Initial(c) && BindAdmits(c.store, instance, id) && user !in c.named
  }

  ghost predicate ReturnedTwice(c: System, id: string)
  {
    exists a: Credentials, b: Credentials ::
      Returned(c, 0, a) && Returned(c, 1, b) && c.binders[0].bindingId == id && c.binders[1].bindingId == id
  }

  /** Bind 1 runs alone to its end in a store like the one Bind 0 started from. */
  lemma SecondReturns(half: Half, trace: seq<System>, moves: seq<Move>, instance: Instance, id: string, a: Credentials,
                      password: string)
    returns (trace': seq<System>, moves': seq<Move>)
    requires HalfRun(half, trace, moves) && Returned(Last(trace), 0, a) && Last(trace).binders[0].bindingId == id
    requires BindAdmits(Last(trace).store, instance, id) && 1 in Last(trace).binders
    requires BindAlone(Last(trace).store, Last(trace).binders[1])
          == BindAlone(Last(trace).store, StartBind(id, instance, password))
    ensures HalfRun(half, trace', moves') && trace'[0] == trace[0] && ReturnedTwice(Last(trace'), id)
  {
    var c := Last(trace);
    trace', moves' := FinishBind(half, trace, moves, 1);
    BindAloneIsAtomic(c.store, id, instance, password);
    BindAloneKeepsId(c.store, StartBind(id, instance, password));
    DatabaseBindSucceedsIff(c.store, instance, id, Ok(password));
    var b := BindDatabase(c.store, instance, id, Ok(password)).reply.value;
    assert Returned(Last(trace'), 0, a) && Returned(Last(trace'), 1, b);
  }

  /** Binding ids must not be reused after an Unbind: from every system before the first request in which a Bind
      succeeds, a run leads to two Binds that returned credentials for one id, although no Unbind was sent
      before its Bind had returned. */
  lemma ReuseReturnsTwice(c: System, instance: Instance, id: string, user: string, first: string, second: string)
    returns (trace: seq<System>, moves: seq<Move>)
    requires ReadyToBind(c, instance, id, user)
    ensures HalfRun(UnbindsComeAfter, trace, moves) && trace[0] == c && ReturnedTwice(Last(trace), id)
  {
    var half := UnbindsComeAfter;
    var bind0, bind1 := StartBind(id, instance, first), StartBind(id, instance, second);
    trace, moves := Extend(half, [c], [], SpawnBind(0, id, instance, first), c.(binders := map[0 := bind0]));
    var a;
    trace, moves, a := WholeBinding(half, trace, moves, instance, id, first, user);
    var c1 := Last(trace);
    var c2 := c1.(binders := c1.binders[1 := bind1]);
    trace, moves := Extend(half, trace, moves, SpawnBind(1, id, instance, second), c2);
    trace, moves := SecondReturns(half, trace, moves, instance, id, a, second);
  }

  /** A Bind that has read the cluster ends like one that starts now, if the store has the same objects. */
  lemma WaitingBind(s: State, s': State, instance: Instance, id: string, password: string)
    requires BindAdmits(s, instance, id) && s'.composites == s.composites
    ensures var b := BindStep(s, StartBind(id, instance, password), NoFault).binder;
            BeforeSecret(b) && b.bindingId == id && BindStep(s, StartBind(id, instance, password), NoFault).state == s
            && BindAlone(s', b) == BindAlone(s', StartBind(id, instance, password))
  {
  }

  /** Nor may a client unbind while a Bind is still before its first write: from every such system, a run in
      which no Bind is sent after an Unbind leads to two Binds that returned credentials for one id. The
      second Bind was sent at the start, read the cluster, and waited until the first one was unbound. */
  lemma EarlyUnbindReturnsTwice(c: System, instance: Instance, id: string, user: string, first: string, second: string)
    returns (trace: seq<System>, moves: seq<Move>)
    requires ReadyToBind(c, instance, id, user)
    ensures HalfRun(BindsComeFirst, trace, moves) && trace[0] == c && ReturnedTwice(Last(trace), id)
  {
    var half := BindsComeFirst;
    var bind0, bind1 := StartBind(id, instance, first), StartBind(id, instance, second);
    var waiting := BindStep(c.store, bind1, NoFault).binder;
    trace, moves := Extend(half, [c], [], SpawnBind(0, id, instance, first), c.(binders := map[0 := bind0]));
    trace, moves := Extend(half, trace, moves, SpawnBind(1, id, instance, second),
                           c.(binders := map[0 := bind0, 1 := bind1]));
    WaitingBind(c.store, c.store, instance, id, second);
    var c1 := c.(binders := map[0 := bind0, 1 := waiting]);
    trace, moves := Extend(half, trace, moves, AdvanceBind(1, NoFault), c1);
    var a;
    trace, moves, a := WholeBinding(half, trace, moves, instance, id, first, user);
    WaitingBind(c.store, Last(trace).store, instance, id, second);
    assert Last(trace).binders[1] == waiting;
    trace, moves := SecondReturns(half, trace, moves, instance, id, a, second);
  }
}
