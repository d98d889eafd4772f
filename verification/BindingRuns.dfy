/** The binding protocol over whole runs. */
module BindingRuns {
  import opened Types
  import opened Store
  import opened Requests
  import opened Interleaving
  import opened Bindings
  import opened BindingSafety
  import opened BindingCreators

  /** A step of a trace, kept apart so that runs are unfolded one step at a time. */
  ghost predicate StepAt(trace: seq<System>, moves: seq<Move>, i: nat)
    requires |trace| == |moves| + 1 && i < |moves|
  {
    Next(trace[i], moves[i], trace[i + 1])
  }

  ghost predicate IsRun(trace: seq<System>, moves: seq<Move>)
  {
    && |trace| == |moves| + 1
    && forall i :: 0 <= i < |moves| ==> StepAt(trace, moves, i)
  }

  /** All requests of the run are sent by disciplined clients. */
  ghost predicate ClientsBehave(trace: seq<System>, moves: seq<Move>)
    requires |trace| == |moves| + 1
  {
    forall i :: 0 <= i < |moves| ==> Disciplined(trace[i], moves[i])
  }

  // ---------------------------------------------------------------- Disciplined clients do not reuse ids

  ghost predicate UnbindSent(c: System, id: string)
  {
    exists t :: t in c.unbinders && c.unbinders[t].bindingId == id
  }

  predicate SecretIsOwned(s: State, id: string)
  {
    BindingPassword(id) in s.secrets && s.secrets[BindingPassword(id)].owner.Some?
  }

  /** Secrets are marked or collected only for bindings that an Unbind was sent for, and no Bind of such a
      binding is still before its first write. */
  ghost predicate Orderly(c: System)
  {
    && (forall id: string :: id in c.retired || SecretIsOwned(c.store, id) ==> UnbindSent(c, id))
    && (forall t :: t in c.binders && BeforeSecret(c.binders[t]) ==> !UnbindSent(c, c.binders[t].bindingId))
  }

  lemma SentStaysSent(c: System, mv: Move, c': System, id: string)
    requires Next(c, mv, c')
    ensures UnbindSent(c, id) ==> UnbindSent(c', id)
    ensures UnbindSent(c', id) ==> UnbindSent(c, id) || (mv.SpawnUnbind? && mv.bindingId == id)
  {
    if UnbindSent(c, id) {
      var t :| t in c.unbinders && c.unbinders[t].bindingId == id;
      assert t in c'.unbinders && c'.unbinders[t].bindingId == id;
    }
    if UnbindSent(c', id) {
      var t :| t in c'.unbinders && c'.unbinders[t].bindingId == id;
      assert t in c.unbinders ==> c.unbinders[t].bindingId == id;
    }
  }

  /** Only an Unbind of the binding gives its secret an owner. */
  lemma OwnedByUnbind(c: System, mv: Move, c': System, id: string)
    requires Next(c, mv, c') && SecretIsOwned(c'.store, id)
    ensures SecretIsOwned(c.store, id) || UnbindSent(c, id)
  {
    match mv
    case AdvanceBind(tid, fault) => BindOwnsNothing(c.store, c.binders[tid], fault, id);
    case AdvanceUnbind(tid, fault) => UnbindOwnsItsSecret(c.store, c.unbinders[tid], fault, id);
    case _ =>
  }

  lemma BindOwnsNothing(s: State, b: Binder, fault: Fault, id: string)
    requires SecretIsOwned(BindStep(s, b, fault).state, id)
    ensures SecretIsOwned(s, id)
  {
  }

  lemma UnbindOwnsItsSecret(s: State, u: Unbinder, fault: Fault, id: string)
    requires SecretIsOwned(UnbindStep(s, u.bindingId, u.point, fault).state, id)
    ensures SecretIsOwned(s, id) || u.bindingId == id
  {
  }

  lemma BeforeSecretComesFirst(c: System, mv: Move, c': System, tid: nat)
    requires Next(c, mv, c') && tid in c'.binders && BeforeSecret(c'.binders[tid])
    ensures if tid in c.binders
            then BeforeSecret(c.binders[tid]) && c'.binders[tid].bindingId == c.binders[tid].bindingId
            else mv.SpawnBind? && mv.bindingId == c'.binders[tid].bindingId
  {
  }

  /** A disciplined client keeps the order, and keeps binding ids from being reused. */
  lemma DisciplineIsNoReuse(c: System, mv: Move, c': System)
    requires Orderly(c) && Next(c, mv, c') && Disciplined(c, mv)
    ensures Orderly(c') && NoReuse(c, mv)
  {
    forall id: string | id in c'.retired || SecretIsOwned(c'.store, id) ensures UnbindSent(c', id) {
      SentStaysSent(c, mv, c', id);
      if SecretIsOwned(c'.store, id) {
        OwnedByUnbind(c, mv, c', id);
      }
    }
    forall t | t in c'.binders && BeforeSecret(c'.binders[t]) ensures !UnbindSent(c', c'.binders[t].bindingId) {
      BeforeSecretComesFirst(c, mv, c', t);
      SentStaysSent(c, mv, c', c'.binders[t].bindingId);
    }
  }

  lemma {:induction false} RunIsOrderly(trace: seq<System>, moves: seq<Move>, i: nat)
    requires IsRun(trace, moves) && ClientsBehave(trace, moves) && Initial(trace[0]) && i < |trace|
    ensures Orderly(trace[i])
  {
    if i > 0 {
      assert StepAt(trace, moves, i - 1);
      RunIsOrderly(trace, moves, i - 1);
      DisciplineIsNoReuse(trace[i - 1], moves[i - 1], trace[i]);
    }
  }

  lemma {:induction false} RunIsSafe(trace: seq<System>, moves: seq<Move>, i: nat)
    requires IsRun(trace, moves) && ClientsBehave(trace, moves) && Initial(trace[0]) && i < |trace|
    ensures Safe(trace[i])
  {
    if i == 0 {
      InitialSafe(trace[0]);
    } else {
      RunIsSafe(trace, moves, i - 1);
      RunIsOrderly(trace, moves, i - 1);
      assert StepAt(trace, moves, i - 1);
      DisciplineIsNoReuse(trace[i - 1], moves[i - 1], trace[i]);
      NextKeepsSafe(trace[i - 1], moves[i - 1], trace[i]);
    }
  }

  lemma {:induction false} RunIsBased(trace: seq<System>, moves: seq<Move>, i: nat)
    requires IsRun(trace, moves) && Initial(trace[0]) && i < |trace|
    ensures Base(trace[i])
  {
    if i > 0 {
      RunIsBased(trace, moves, i - 1);
      assert StepAt(trace, moves, i - 1);
      NextKeepsBase(trace[i - 1], moves[i - 1], trace[i]);
    }
  }

  // ---------------------------------------------------------------- Passwords

  /** The Bind has returned these credentials. */
  predicate Returned(c: System, tid: nat, credentials: Credentials)
  {
    tid in c.binders && c.binders[tid].point == BindDone(Ok(credentials))
  }

  lemma DoneStays(c: System, mv: Move, c': System, tid: nat)
    requires Next(c, mv, c') && tid in c.binders && c.binders[tid].point.BindDone?
    ensures tid in c'.binders && c'.binders[tid] == c.binders[tid]
  {
  }

  lemma {:induction false} DoneStaysDone(trace: seq<System>, moves: seq<Move>, tid: nat, i: nat, j: nat)
    requires IsRun(trace, moves) && i <= j < |trace|
    requires tid in trace[i].binders && trace[i].binders[tid].point.BindDone?
    ensures tid in trace[j].binders && trace[j].binders[tid] == trace[i].binders[tid]
    decreases j
  {
    if i < j {
      DoneStaysDone(trace, moves, tid, i, j - 1);
      assert StepAt(trace, moves, j - 1);
      DoneStays(trace[j - 1], moves[j - 1], trace[j], tid);
    }
  }

  lemma {:induction false} RunIsHeld(trace: seq<System>, moves: seq<Move>, i: nat)
    requires IsRun(trace, moves) && Initial(trace[0]) && i < |trace|
    ensures Held(trace[i]) && Created(trace[i])
  {
    if i > 0 {
      RunIsBased(trace, moves, i - 1);
      RunIsHeld(trace, moves, i - 1);
      assert StepAt(trace, moves, i - 1);
      NextKeepsHeld(trace[i - 1], moves[i - 1], trace[i]);
      NextKeepsCreated(trace[i - 1], moves[i - 1], trace[i]);
    }
  }

  /** In every interleaving, whatever clients do and with a failure possible at each call: two Binds that have
      returned credentials for one binding id are the same Bind, unless the id's secret has been collected. */
  lemma AtMostOneBindReturns(trace: seq<System>, moves: seq<Move>, i: nat, t: nat, r: nat, a: Credentials,
                             b: Credentials)
    requires IsRun(trace, moves) && Initial(trace[0]) && i < |trace|
    requires Returned(trace[i], t, a) && Returned(trace[i], r, b)
    requires trace[i].binders[t].bindingId == trace[i].binders[r].bindingId
    ensures t == r || trace[i].binders[t].bindingId in trace[i].retired
  {
    RunIsBased(trace, moves, i);
    RunIsHeld(trace, moves, i);
    var s := trace[i].store;
    assert StampOk(s, trace[i].binders[t]) && StampOk(s, trace[i].binders[r]);
    assert StampHeld(trace[i], trace[i].binders[t]) && StampHeld(trace[i], trace[i].binders[r]);
  }

  /** If all clients are disciplined, they are the same Bind even after the secret has been collected. */
  lemma DisciplinedBindsReturnOnce(trace: seq<System>, moves: seq<Move>, i: nat, t: nat, r: nat, a: Credentials,
                                   b: Credentials)
    requires IsRun(trace, moves) && ClientsBehave(trace, moves) && Initial(trace[0]) && i < |trace|
    requires Returned(trace[i], t, a) && Returned(trace[i], r, b)
    requires trace[i].binders[t].bindingId == trace[i].binders[r].bindingId
    ensures t == r
  {
    RunIsSafe(trace, moves, i);
    assert StampOk(trace[i].store, trace[i].binders[t]) && StampOk(trace[i].store, trace[i].binders[r]);
  }

  /** The password a Bind returned is the one stored under the binding's name in every later state, until the
      secret is collected. Nothing is assumed about clients. */
  lemma ReturnedPasswordIsStored(trace: seq<System>, moves: seq<Move>, i: nat, j: nat, tid: nat,
                                 credentials: Credentials)
    requires IsRun(trace, moves) && Initial(trace[0]) && i <= j < |trace|
    requires Returned(trace[i], tid, credentials)
    ensures var id := trace[i].binders[tid].bindingId;
            var s := trace[j].store;
            id in trace[j].retired
            || (BindingPassword(id) in s.secrets
                && s.secrets[BindingPassword(id)].data == map[PasswordKey := credentials.password])
  {
    DoneStaysDone(trace, moves, tid, i, j);
    RunIsBased(trace, moves, j);
    RunIsHeld(trace, moves, j);
    var b := trace[j].binders[tid];
    assert StampHeld(trace[j], b) && StampOk(trace[j].store, b);
  }

  /** Without any assumption on ids: two Binds never hold the same incarnation of a password secret, and a
      secret that a Bind created holds that Bind's password for as long as it exists. */
  lemma OneBindPerSecret(trace: seq<System>, moves: seq<Move>, i: nat, t: nat, r: nat, credentials: Credentials)
    requires IsRun(trace, moves) && Initial(trace[0]) && i < |trace|
    requires Returned(trace[i], t, credentials) && r in trace[i].binders && r != t
    ensures var b := trace[i].binders[t];
            && b.stamp.Some? && trace[i].binders[r].stamp != b.stamp
            && forall id: string ::
                 var s := trace[i].store;
                 BindingPassword(id) in s.secrets && s.secrets[BindingPassword(id)].uid == b.stamp.value ==>
                   id == b.bindingId && s.secrets[BindingPassword(id)].data == map[PasswordKey := credentials.password]
  {
    RunIsBased(trace, moves, i);
    assert StampOk(trace[i].store, trace[i].binders[t]);
  }

  // ---------------------------------------------------------------- Composites and their secrets

  /** In every reachable state, after any failures: a binding composite that is not marked for deletion has its
      password secret; one that is marked has a secret owned by its User, or already collected. */
  lemma CompositesHaveTheirSecrets(trace: seq<System>, moves: seq<Move>, i: nat, id: string)
    requires IsRun(trace, moves) && ClientsBehave(trace, moves) && Initial(trace[0]) && i < |trace|
    requires UserKey(id) in trace[i].store.composites
    ensures var s := trace[i].store;
            var c := s.composites[UserKey(id)];
            if c.deleting then
              && LastUser(c.refs).Some?
              && (id in trace[i].retired
                  || (BindingPassword(id) in s.secrets && s.secrets[BindingPassword(id)].owner == LastUser(c.refs)))
            else
              BindingPassword(id) in s.secrets && id !in trace[i].retired
  {
    RunIsSafe(trace, moves, i);
    assert BindingOk(trace[i], id);
    assert ViewOf(trace[i], id).composite == Some(WithoutStatus(trace[i].store.composites[UserKey(id)]));
  }

  /** The secret of a composite that is not marked for deletion cannot be collected. */
  lemma LiveSecretIsNotCollectable(trace: seq<System>, moves: seq<Move>, i: nat, id: string)
    requires IsRun(trace, moves) && ClientsBehave(trace, moves) && Initial(trace[0]) && i < |trace|
    requires UserKey(id) in trace[i].store.composites && !trace[i].store.composites[UserKey(id)].deleting
    ensures !Collectable(trace[i].store, BindingPassword(id))
  {
    RunIsSafe(trace, moves, i);
    assert BindingOk(trace[i], id);
    assert Live(ViewOf(trace[i], id));
  }

  // ---------------------------------------------------------------- A Bind that stops halfway

  /** A password secret without a composite, which no request in flight is going to add or mark. */
  ghost predicate Orphaned(c: System, id: string, secret: Secret)
  {
    && UserKey(id) !in c.store.composites
    && BindingPassword(id) in c.store.secrets && c.store.secrets[BindingPassword(id)] == secret && secret.owner.None?
    && (forall t :: t in c.binders && c.binders[t].bindingId == id ==> !c.binders[t].point.CreateUser?)
    && (forall t :: t in c.unbinders && c.unbinders[t].bindingId == id ==> UserOfPoint(c.unbinders[t].point).None?)
  }

  lemma OrphanOutlastsBind(s: State, b: Binder, fault: Fault, id: string)
    requires BindingPassword(id) in s.secrets && (b.point.CreateUser? ==> b.bindingId != id)
    ensures var st := BindStep(s, b, fault);
            && st.binder.bindingId == b.bindingId
            && (b.bindingId == id ==> st.state == s && !st.binder.point.CreateUser?)
            && BindingPassword(id) in st.state.secrets
               && st.state.secrets[BindingPassword(id)] == s.secrets[BindingPassword(id)]
            && (UserKey(id) in st.state.composites ==> UserKey(id) in s.composites)
  {
  }

  lemma OrphanOutlastsUnbind(s: State, u: Unbinder, fault: Fault, id: string)
    requires UserKey(id) !in s.composites && BindingPassword(id) in s.secrets
    requires u.bindingId == id ==> UserOfPoint(u.point).None?
    ensures var st := UnbindStep(s, u.bindingId, u.point, fault);
            && (u.bindingId == id ==> UserOfPoint(st.point).None?)
            && BindingPassword(id) in st.state.secrets
               && st.state.secrets[BindingPassword(id)] == s.secrets[BindingPassword(id)]
            && UserKey(id) !in st.state.composites
  {
  }

  lemma OrphanStays(c: System, mv: Move, c': System, id: string, secret: Secret)
    requires Orphaned(c, id, secret) && Next(c, mv, c')
    ensures Orphaned(c', id, secret)
  {
    match mv
    case AdvanceBind(tid, fault) => OrphanOutlastsBind(c.store, c.binders[tid], fault, id);
    case AdvanceUnbind(tid, fault) => OrphanOutlastsUnbind(c.store, c.unbinders[tid], fault, id);
    case _ =>
  }

  /** A Bind that fails to create the composite leaves an orphaned secret. */
  lemma FailureLeavesAnOrphan(c: System, tid: nat, fault: Fault, c': System)
    requires Safe(c) && Next(c, AdvanceBind(tid, fault), c')
    requires c.binders[tid].point.CreateUser? && c'.store == c.store
    ensures var id := c.binders[tid].bindingId;
            BindingPassword(id) in c'.store.secrets && Orphaned(c', id, c'.store.secrets[BindingPassword(id)])
  {
    var b := c.binders[tid];
    var v := ViewOf(c, b.bindingId);
    assert BindingOk(c, b.bindingId) && BinderOk(v, b);
    assert UserOf(v).None?;
    BindStepShape(c.store, b, fault);
    forall t | t in c'.binders && c'.binders[t].bindingId == b.bindingId ensures !c'.binders[t].point.CreateUser? {
      if t != tid {
        assert StampOk(c.store, b) && StampOk(c.store, c.binders[t]);
      }
    }
    forall t | t in c'.unbinders && c'.unbinders[t].bindingId == b.bindingId
      ensures UserOfPoint(c'.unbinders[t].point).None?
    {
      assert UnbinderOk(v, c.store.users, c.named, c.unbinders[t].point);
    }
  }

  /** A Bind that has not yet created its secret, for an orphaned id, never will. */
  lemma OrphanBlocksBind(c: System, mv: Move, c': System, id: string, secret: Secret, tid: nat)
    requires Orphaned(c, id, secret) && Next(c, mv, c')
    requires tid in c.binders && c.binders[tid].bindingId == id && c.binders[tid].stamp.None?
             && StampOk(c.store, c.binders[tid])
    ensures tid in c'.binders && c'.binders[tid].bindingId == id && c'.binders[tid].stamp.None?
  {
  }

  lemma OrphanStaysAt(trace: seq<System>, moves: seq<Move>, id: string, secret: Secret, i: nat)
    requires IsRun(trace, moves) && i < |moves| && Orphaned(trace[i], id, secret)
    ensures Orphaned(trace[i + 1], id, secret)
  {
    assert StepAt(trace, moves, i);
    OrphanStays(trace[i], moves[i], trace[i + 1], id, secret);
  }

  lemma {:induction false} OrphanStaysOrphaned(trace: seq<System>, moves: seq<Move>, id: string, secret: Secret,
                                               i: nat, j: nat)
    requires IsRun(trace, moves) && i <= j < |trace|
    requires Orphaned(trace[i], id, secret)
    ensures Orphaned(trace[j], id, secret)
    decreases j
  {
    if i < j {
      OrphanStaysOrphaned(trace, moves, id, secret, i, j - 1);
      OrphanStaysAt(trace, moves, id, secret, j - 1);
    }
  }

  /** The Bind is for another id, has created no secret, or has not even been sent. */
  predicate Blocked(c: System, id: string, tid: nat)
  {
    tid in c.binders ==> c.binders[tid].bindingId != id || c.binders[tid].stamp.None?
  }

  lemma StepKeepsBlocked(c: System, mv: Move, c': System, id: string, secret: Secret, tid: nat)
    requires Base(c) && Orphaned(c, id, secret) && Next(c, mv, c') && Blocked(c, id, tid)
    ensures Blocked(c', id, tid)
  {
    if tid in c.binders {
      BinderIdStays(c, mv, c', tid);
      if c.binders[tid].bindingId == id {
        assert StampOk(c.store, c.binders[tid]);
        OrphanBlocksBind(c, mv, c', id, secret, tid);
      }
    }
  }

  lemma StaysBlockedAt(trace: seq<System>, moves: seq<Move>, id: string, secret: Secret, i: nat, tid: nat)
    requires IsRun(trace, moves) && i < |moves|
    requires Base(trace[i]) && Orphaned(trace[i], id, secret) && Blocked(trace[i], id, tid)
    ensures Blocked(trace[i + 1], id, tid)
  {
    assert StepAt(trace, moves, i);
    StepKeepsBlocked(trace[i], moves[i], trace[i + 1], id, secret, tid);
  }

  lemma {:induction false} BlockedBindStaysBlocked(trace: seq<System>, moves: seq<Move>, id: string, secret: Secret,
                                                   i: nat, j: nat, tid: nat)
    requires IsRun(trace, moves) && Initial(trace[0]) && i <= j < |trace|
    requires Orphaned(trace[i], id, secret) && Blocked(trace[i], id, tid)
    ensures Blocked(trace[j], id, tid)
    decreases j
  {
    if i < j {
      RunIsBased(trace, moves, j - 1);
      OrphanStaysOrphaned(trace, moves, id, secret, i, j - 1);
      BlockedBindStaysBlocked(trace, moves, id, secret, i, j - 1, tid);
      StaysBlockedAt(trace, moves, id, secret, j - 1, tid);
    }
  }

  lemma BinderIdStays(c: System, mv: Move, c': System, tid: nat)
    requires Next(c, mv, c') && tid in c.binders
    ensures tid in c'.binders && c'.binders[tid].bindingId == c.binders[tid].bindingId
  {
  }

  /** A Bind that fails after creating the secret and before creating the composite cannot be repeated: from
      then on the secret stays as it is, no composite ever appears, and no Bind that had not created the
      secret returns credentials. */
  lemma HalfwayBindIsNotRetryable(trace: seq<System>, moves: seq<Move>, id: string, secret: Secret, i: nat, j: nat,
                                  tid: nat, credentials: Credentials)
    requires IsRun(trace, moves) && Initial(trace[0]) && i <= j < |trace|
    requires Orphaned(trace[i], id, secret)
    ensures UserKey(id) !in trace[j].store.composites
    ensures BindingPassword(id) in trace[j].store.secrets && trace[j].store.secrets[BindingPassword(id)] == secret
    ensures Blocked(trace[i], id, tid) && tid in trace[j].binders && trace[j].binders[tid].bindingId == id ==>
              !Returned(trace[j], tid, credentials)
  {
    OrphanStaysOrphaned(trace, moves, id, secret, i, j);
    if Blocked(trace[i], id, tid) && tid in trace[j].binders {
      BlockedBindStaysBlocked(trace, moves, id, secret, i, j, tid);
      RunIsBased(trace, moves, j);
      assert StampOk(trace[j].store, trace[j].binders[tid]);
    }
  }

  // ---------------------------------------------------------------- An Unbind that stops halfway

  /** The store without its version numbers. */
  function Unversioned(s: State): (map<Key, Composite>, map<SecretName, Secret>, set<string>)
  {
    (map k | k in s.composites :: s.composites[k].(version := 0),
     map n | n in s.secrets :: s.secrets[n].(version := 0),
     s.users)
  }

  /** Marking the secret twice is marking it once. */
  lemma MarkTwice(s: State, id: string)
    requires MarkCredentials(s, id).Ok?
    ensures var s1 := MarkCredentials(s, id).value;
            && MarkCredentials(s1, id).Ok?
            && Unversioned(MarkCredentials(s1, id).value) == Unversioned(s1)
            && s1.composites == s.composites && MarkCredentials(s1, id).value.composites == s.composites
  {
    var s1 := MarkCredentials(s, id).value;
    var user := LastUser(s.composites[UserKey(id)].refs).value;
    assert s1.secrets[BindingPassword(id)].owner == Some(user);
    assert MarkCredentials(s1, id).Ok?;
    var s2 := MarkCredentials(s1, id).value;
    assert s2.secrets.Keys == s1.secrets.Keys;
    assert Unversioned(s2).1 == Unversioned(s1).1;
  }

  lemma DeleteUnversioned(s: State, s': State, key: Key)
    requires key in s.composites && s'.composites == s.composites && Unversioned(s) == Unversioned(s')
    ensures Unversioned(DeleteForeground(s, key).value) == Unversioned(DeleteForeground(s', key).value)
  {
    var d, d' := DeleteForeground(s, key).value, DeleteForeground(s', key).value;
    assert Unversioned(d).0 == Unversioned(d').0;
    assert d.secrets == s.secrets && d'.secrets == s'.secrets;
    assert Unversioned(d).1 == Unversioned(s).1 && Unversioned(d').1 == Unversioned(s').1;
  }

  /** An Unbind that failed between its two writes can be run again at once: the second attempt succeeds as the
      first would have, and leaves the same objects. */
  lemma UnbindCanBeRerun(s: State, id: string)
    requires UnbindDatabase(s, id).reply.Ok?
    ensures MarkCredentials(s, id).Ok?
    ensures var halfway := MarkCredentials(s, id).value;
            && UnbindDatabase(halfway, id).reply.Ok?
            && Unversioned(UnbindDatabase(halfway, id).state) == Unversioned(UnbindDatabase(s, id).state)
  {
    MarkTwice(s, id);
    var s1 := MarkCredentials(s, id).value;
    DeleteUnversioned(s1, MarkCredentials(s1, id).value, UserKey(id));
  }

  /** In every reachable state, after any failures, a binding whose composite is not marked for deletion can be
      unbound exactly when the controller has given it a User; the Unbind then marks the secret as owned by
      that User and the composite for deletion. */
  lemma LiveBindingCanBeUnbound(trace: seq<System>, moves: seq<Move>, i: nat, id: string)
    requires IsRun(trace, moves) && ClientsBehave(trace, moves) && Initial(trace[0]) && i < |trace|
    requires UserKey(id) in trace[i].store.composites && !trace[i].store.composites[UserKey(id)].deleting
    ensures var s := trace[i].store;
            var o := UnbindDatabase(s, id);
            var user := LastUser(s.composites[UserKey(id)].refs);
            && (o.reply.Ok? <==> user.Some?)
            && (o.reply.Ok? ==>
                  && UserKey(id) in o.state.composites && o.state.composites[UserKey(id)].deleting
                  && BindingPassword(id) in o.state.secrets && o.state.secrets[BindingPassword(id)].owner == user
                  && o.state.secrets[BindingPassword(id)].data == s.secrets[BindingPassword(id)].data)
            && (o.reply.Err? ==> o.state == s)
  {
    RunIsSafe(trace, moves, i);
    var v := ViewOf(trace[i], id);
    assert BindingOk(trace[i], id);
    assert Live(v) && UserOf(v) == LastUser(trace[i].store.composites[UserKey(id)].refs);
  }

  /** The binding's composite has this User, or the composite has been removed at some time. */
  predicate HasUser(c: System, id: string, user: string)
  {
    id in c.gone
    || (UserKey(id) in c.store.composites && LastUser(c.store.composites[UserKey(id)].refs) == Some(user))
  }

  lemma UserStays(trace: seq<System>, moves: seq<Move>, i: nat, id: string, user: string)
    requires IsRun(trace, moves) && i < |moves| && HasUser(trace[i], id, user)
    ensures HasUser(trace[i + 1], id, user)
  {
    assert StepAt(trace, moves, i);
    StepKeepsUser(trace[i], moves[i], trace[i + 1], id, user);
  }

  lemma StepKeepsUser(c: System, mv: Move, c': System, id: string, user: string)
    requires Next(c, mv, c') && HasUser(c, id, user)
    ensures HasUser(c', id, user)
  {
    if id !in c.gone {
      match mv
      case AdvanceBind(tid, fault) => BindKeepsUsers(c.store, c.binders[tid], fault, id);
      case AdvanceUnbind(tid, fault) => UnbindKeepsUsers(c.store, c.unbinders[tid], fault, id);
      case _ =>
    }
  }

  lemma BindKeepsUsers(s: State, b: Binder, fault: Fault, id: string)
    requires UserKey(id) in s.composites
    ensures var s' := BindStep(s, b, fault).state;
            UserKey(id) in s'.composites && s'.composites[UserKey(id)] == s.composites[UserKey(id)]
  {
  }

  lemma UnbindKeepsUsers(s: State, u: Unbinder, fault: Fault, id: string)
    requires UserKey(id) in s.composites
    ensures var s' := UnbindStep(s, u.bindingId, u.point, fault).state;
            UserKey(id) in s'.composites && s'.composites[UserKey(id)].refs == s.composites[UserKey(id)].refs
  {
  }

  lemma {:induction false} UserStaysOrIsGone(trace: seq<System>, moves: seq<Move>, i: nat, j: nat, id: string,
                                             user: string)
    requires IsRun(trace, moves) && i <= j < |trace| && HasUser(trace[i], id, user)
    ensures HasUser(trace[j], id, user)
    decreases j
  {
    if i < j {
      UserStaysOrIsGone(trace, moves, i, j - 1, id, user);
      UserStays(trace, moves, j - 1, id, user);
    }
  }

  /** Wherever earlier Unbinds stopped and whatever has happened since: from the moment a binding has its User,
      an Unbind succeeds, until some Unbind has marked the composite or it is gone. */
  lemma UnbindStaysPossible(trace: seq<System>, moves: seq<Move>, i: nat, j: nat, id: string)
    requires IsRun(trace, moves) && ClientsBehave(trace, moves) && Initial(trace[0]) && i <= j < |trace|
    requires UserKey(id) in trace[i].store.composites
    requires LastUser(trace[i].store.composites[UserKey(id)].refs).Some?
    ensures var s := trace[j].store;
            || id in trace[j].gone
            || (UserKey(id) in s.composites
                && (s.composites[UserKey(id)].deleting || UnbindDatabase(s, id).reply.Ok?))
  {
    UserStaysOrIsGone(trace, moves, i, j, id, LastUser(trace[i].store.composites[UserKey(id)].refs).value);
    if id !in trace[j].gone && !trace[j].store.composites[UserKey(id)].deleting {
      LiveBindingCanBeUnbound(trace, moves, j, id);
    }
  }

  // ---------------------------------------------------------------- Requests running alone

  function BindRemaining(p: BindPoint): nat
  {
    match p
    case GetCluster => 5
    case CreatePassword(_) => 4
    case CreateUser(_) => 3
    case GetConnection(_) => 2
    case GetLabelParent(_) => 1
    case BindDone(_) => 0
  }

  function BindAlone(s: State, b: Binder): BindStepped
    decreases BindRemaining(b.point)
  {
    if b.point.BindDone? then BindStepped(s, b)
    else
      var st := BindStep(s, b, NoFault);
      BindAlone(st.state, st.binder)
  }

  /** The credentials phase of a Bind, call by call. */
  lemma BindAloneReads(s: State, b: Binder)
    requires b.point.GetConnection?
    ensures BindAlone(s, b).state == s
    ensures BindAlone(s, b).binder.point
         == BindDone(BindCredentials(s, b.instance, b.point.cluster, b.bindingId, b.password))
  {
    var b1 := BindStep(s, b, NoFault).binder;
    if !b1.point.BindDone? {
      var b2 := BindStep(s, b1, NoFault).binder;
      assert b2.point.BindDone?;
      assert BindAlone(s, b1) == BindAlone(s, b2) == BindStepped(s, b2);
    }
  }

  lemma BindAloneCreates(s: State, b: Binder)
    requires b.point.CreatePassword?
    ensures var created := CreateBinding(s, b.bindingId, b.instance.key.name, b.parent, Ok(b.password));
            && BindAlone(s, b).state == created.state
            && BindAlone(s, b).binder.point
               == match created.reply
                  case Err(e) => BindDone(Err(e))
                  case Ok(pw) => BindDone(BindCredentials(created.state, b.instance, b.point.cluster, b.bindingId, pw))
  {
    var st1 := BindStep(s, b, NoFault);
    if st1.binder.point.CreateUser? {
      var st2 := BindStep(st1.state, st1.binder, NoFault);
      assert BindAlone(s, b) == BindAlone(st2.state, st2.binder);
      if st2.binder.point.GetConnection? {
        BindAloneReads(st2.state, st2.binder);
      }
    }
  }

  /** A Bind whose calls nothing comes between is the atomic Bind. */
  lemma BindAloneIsAtomic(s: State, bindingId: string, instance: Instance, password: string)
    ensures var o := BindDatabase(s, instance, bindingId, Ok(password));
            var done := BindAlone(s, StartBind(bindingId, instance, password));
            done.state == o.state && done.binder.point == BindDone(o.reply)
  {
    var b := StartBind(bindingId, instance, password);
    if b.point.GetCluster? {
      var b1 := BindStep(s, b, NoFault).binder;
      if b1.point.CreatePassword? {
        BindAloneCreates(s, b1);
      }
    }
  }

  function UnbindRemaining(p: UnbindPoint): nat
  {
    match p
    case GetUserComposite => 5
    case GetPassword(_) => 4
    case GetUser(_, _) => 3
    case UpdatePassword(_, _) => 2
    case DeleteUserComposite(_) => 1
    case UnbindDone(_) => 0
  }

  function UnbindAlone(s: State, id: string, p: UnbindPoint): UnbindStepped
    decreases UnbindRemaining(p)
  {
    if p.UnbindDone? then UnbindStepped(s, p)
    else
      var st := UnbindStep(s, id, p, NoFault);
      UnbindAlone(st.state, id, st.point)
  }

  function AfterDelete(s: State, r: Result<State>): UnbindStepped
  {
    match r case Err(e) => UnbindStepped(s, UnbindDone(Err(e))) case Ok(s') => UnbindStepped(s', UnbindDone(Ok(())))
  }

  lemma UnbindAloneDeletes(s: State, id: string, user: string)
    ensures UnbindAlone(s, id, DeleteUserComposite(user)) == AfterDelete(s, DeleteForeground(s, UserKey(id)))
  {
    assert UnbindStep(s, id, DeleteUserComposite(user), NoFault).point.UnbindDone?;
  }

  lemma UnbindAloneWrites(s: State, id: string, user: string, secret: Secret)
    requires BindingPassword(id) in s.secrets && s.secrets[BindingPassword(id)] == secret
    ensures UpdateSecret(s, BindingPassword(id), secret.(owner := Some(user))).Ok?
    ensures UnbindAlone(s, id, UpdatePassword(user, secret))
         == UnbindAlone(UpdateSecret(s, BindingPassword(id), secret.(owner := Some(user))).value, id,
                        DeleteUserComposite(user))
  {
  }

  /** What an Unbind has read when it comes to its first write. */
  lemma UnbindAloneReads(s: State, id: string)
    returns (user: string, secret: Secret)
    ensures var marked := MarkCredentials(s, id);
            if marked.Err? then UnbindAlone(s, id, GetUserComposite) == UnbindStepped(s, UnbindDone(Err(marked.error)))
            else
              && BindingPassword(id) in s.secrets && s.secrets[BindingPassword(id)] == secret
              && UpdateSecret(s, BindingPassword(id), secret.(owner := Some(user))) == marked
              && UnbindAlone(s, id, GetUserComposite) == UnbindAlone(s, id, UpdatePassword(user, secret))
  {
    user, secret := "", Secret(map[], None, 0, 0);
    var p1 := UnbindStep(s, id, GetUserComposite, NoFault).point;
    assert UnbindAlone(s, id, GetUserComposite) == UnbindAlone(s, id, p1);
    if p1.GetPassword? {
      var p2 := UnbindStep(s, id, p1, NoFault).point;
      assert UnbindAlone(s, id, p1) == UnbindAlone(s, id, p2);
      if p2.GetUser? {
        var p3 := UnbindStep(s, id, p2, NoFault).point;
        assert UnbindAlone(s, id, p2) == UnbindAlone(s, id, p3);
        user, secret := p2.user, p2.secret;
      }
    }
  }

  /** An Unbind whose calls nothing comes between is the atomic Unbind. */
  lemma UnbindAloneIsAtomic(s: State, id: string)
    ensures var o := UnbindDatabase(s, id);
            UnbindAlone(s, id, GetUserComposite) == UnbindStepped(o.state, UnbindDone(o.reply))
  {
    var user, secret := UnbindAloneReads(s, id);
    match MarkCredentials(s, id)
    case Err(_) =>
    case Ok(s1) =>
      UnbindAloneWrites(s, id, user, secret);
      UnbindAloneDeletes(s1, id, user);
  }

  lemma {:induction false} BindAloneKeepsId(s: State, b: Binder)
    ensures BindAlone(s, b).binder.bindingId == b.bindingId
    decreases BindRemaining(b.point)
  {
    if !b.point.BindDone? {
      var st := BindStep(s, b, NoFault);
      BindAloneKeepsId(st.state, st.binder);
    }
  }
}
