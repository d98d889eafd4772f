/** Safety of the binding protocol while binding ids are not reused. */
module BindingSafety {
  import opened Types
  import opened Store
  import opened Requests
  import opened Interleaving
  import opened Bindings

  // ---------------------------------------------------------------- One binding id at a time

  /** Everything the store and the history say about one binding id. */
  datatype View = View(composite: Option<Composite>, secret: Option<Secret>, retired: bool, gone: bool)

  function ViewOf(c: System, id: string): View
  {
    View(
      if UserKey(id) in c.store.composites then Some(WithoutStatus(c.store.composites[UserKey(id)])) else None,
      if BindingPassword(id) in c.store.secrets then Some(c.store.secrets[BindingPassword(id)]) else None,
      id in c.retired,
      id in c.gone
    )
  }

  function UserOf(v: View): Option<string>
  {
    if v.composite.Some? then LastUser(v.composite.value.refs) else None
  }

  function OwnerOf(v: View): Option<string>
  {
    if v.secret.Some? then v.secret.value.owner else None
  }

  predicate Live(v: View) { v.composite.Some? && !v.composite.value.deleting }

  predicate Dying(v: View) { v.composite.Some? && v.composite.value.deleting }

  ghost predicate ViewOk(v: View, users: set<string>, named: set<string>)
  {
    // A composite not marked for deletion has its password secret.
    && (Live(v) ==> v.secret.Some?)
    // A composite marked for deletion has a secret owned by its User, or already collected.
    && (Dying(v) ==> UserOf(v).Some? && (v.retired || (v.secret.Some? && OwnerOf(v) == UserOf(v))))
    // A secret is owned by nothing or by the User of the composite.
    && (v.composite.Some? && OwnerOf(v).Some? ==> OwnerOf(v) == UserOf(v))
    // The User of a composite not marked for deletion exists.
    && (Live(v) && UserOf(v).Some? ==> UserOf(v).value in users)
    && (UserOf(v).Some? ==> UserOf(v).value in named)
    && (OwnerOf(v).Some? ==> OwnerOf(v).value in named)
    // After the composite, the secret is about to go.
    && (v.gone ==> v.composite.None? && (v.retired || (OwnerOf(v).Some? && OwnerOf(v).value !in users)))
    // A collected secret does not come back, and its composite is on the way out.
    && (v.retired ==> v.secret.None? && !Live(v))
  }

  /** A Bind that has created its secret still finds it, until it is collected; and while it is about to
      create the composite nobody has touched the binding. */
  ghost predicate BinderOk(v: View, b: Binder)
  {
    && (b.stamp.Some? ==> v.retired || (v.secret.Some? && v.secret.value.uid == b.stamp.value))
    && (b.point.CreateUser? ==>
          v.composite.None? && v.secret.Some? && v.secret.value.owner.None? && !v.retired && !v.gone)
  }

  function UserOfPoint(p: UnbindPoint): Option<string>
  {
    match p
    case GetPassword(user) => Some(user)
    case GetUser(user, _) => Some(user)
    case UpdatePassword(user, _) => Some(user)
    case DeleteUserComposite(user) => Some(user)
    case _ => None
  }

  /** An Unbind works with the User of the composite, as long as there is one; and once it has marked the
      secret, the secret stays marked. */
  ghost predicate UnbinderOk(v: View, users: set<string>, named: set<string>, p: UnbindPoint)
  {
    UserOfPoint(p).Some? ==>
      && UserOfPoint(p).value in named
      && (if v.gone then UserOfPoint(p).value !in users else UserOf(v) == UserOfPoint(p))
      && (p.DeleteUserComposite? ==> v.gone || v.retired || OwnerOf(v) == UserOfPoint(p))
  }

  ghost predicate BindingOk(c: System, id: string)
  {
    && ViewOk(ViewOf(c, id), c.store.users, c.named)
    && (forall t :: t in c.binders && c.binders[t].bindingId == id ==> BinderOk(ViewOf(c, id), c.binders[t]))
    && (forall t :: t in c.unbinders && c.unbinders[t].bindingId == id ==>
          UnbinderOk(ViewOf(c, id), c.store.users, c.named, c.unbinders[t].point))
  }

  /** At most one Bind per id has created a secret. */
  ghost predicate OneCreator(binders: map<nat, Binder>)
  {
    forall t, r :: t in binders && r in binders && t != r && binders[t].stamp.Some? && binders[r].stamp.Some? ==>
      binders[t].bindingId != binders[r].bindingId
  }

  /** No two composites share a User. */
  ghost predicate OwnUsers(c: System)
  {
    forall a: string, b: string :: a != b && UserOf(ViewOf(c, a)).Some? ==> UserOf(ViewOf(c, a)) != UserOf(ViewOf(c, b))
  }

  ghost predicate Safe(c: System)
  {
    && Base(c)
    && (forall id: string :: BindingOk(c, id))
    && OneCreator(c.binders)
    && OwnUsers(c)
    && c.store.users <= c.named
  }

  // ---------------------------------------------------------------- Other bindings are not disturbed

  /** Users come with new names and go only when no other binding needs them. */
  ghost predicate UsersFit(v: View, users: set<string>, named: set<string>, users': set<string>, named': set<string>)
  {
    && named <= named'
    && (forall u :: u in users' ==> u in users || u !in named)
    && (Live(v) && UserOf(v).Some? ==> UserOf(v).value in users ==> UserOf(v).value in users')
  }

  lemma ViewSurvives(v: View, users: set<string>, named: set<string>, users': set<string>, named': set<string>)
    requires ViewOk(v, users, named) && UsersFit(v, users, named, users', named')
    ensures ViewOk(v, users', named')
  {
  }

  lemma UnbinderSurvives(v: View, users: set<string>, named: set<string>, users': set<string>, named': set<string>,
                         p: UnbindPoint)
    requires UnbinderOk(v, users, named, p) && UsersFit(v, users, named, users', named')
    ensures UnbinderOk(v, users', named', p)
  {
  }

  /** A binding that the move does not concern stays fine. */
  lemma OtherBinding(c: System, c': System, id: string)
    requires BindingOk(c, id) && ViewOf(c', id) == ViewOf(c, id)
    requires UsersFit(ViewOf(c, id), c.store.users, c.named, c'.store.users, c'.named)
    requires forall t :: t in c'.binders && c'.binders[t].bindingId == id ==>
               (t in c.binders && c.binders[t] == c'.binders[t]) || BinderOk(ViewOf(c, id), c'.binders[t])
    requires forall t :: t in c'.unbinders && c'.unbinders[t].bindingId == id ==>
               (t in c.unbinders && c.unbinders[t] == c'.unbinders[t])
               || UnbinderOk(ViewOf(c, id), c.store.users, c.named, c'.unbinders[t].point)
    ensures BindingOk(c', id)
  {
    var v := ViewOf(c, id);
    ViewSurvives(v, c.store.users, c.named, c'.store.users, c'.named);
    forall t | t in c'.unbinders && c'.unbinders[t].bindingId == id
      ensures UnbinderOk(v, c'.store.users, c'.named, c'.unbinders[t].point)
    {
      UnbinderSurvives(v, c.store.users, c.named, c'.store.users, c'.named, c'.unbinders[t].point);
    }
  }

  // ---------------------------------------------------------------- Bind steps

  /** The two systems differ, in what bindings depend on, only for one id. */
  ghost predicate OnlyAbout(c: System, c': System, id: string)
  {
    && c'.named == c.named && c'.store.users == c.store.users
    && (forall other: string :: other != id ==> ViewOf(c', other) == ViewOf(c, other))
  }

  lemma OthersUndisturbed(c: System, c': System, id: string)
    requires Safe(c) && OnlyAbout(c, c', id)
    requires forall t :: t in c'.binders && c'.binders[t].bindingId != id ==>
                           t in c.binders && c.binders[t] == c'.binders[t]
    requires forall t :: t in c'.unbinders && c'.unbinders[t].bindingId != id ==>
                           t in c.unbinders && c.unbinders[t] == c'.unbinders[t]
    ensures forall other: string :: other != id ==> BindingOk(c', other)
  {
    forall other: string | other != id ensures BindingOk(c', other) {
      OtherBinding(c, c', other);
    }
  }

  /** Creating the password secret: no other Bind has one for this id, and nothing else is there yet. */
  lemma PasswordCreated(v: View, users: set<string>, named: set<string>, secret: Secret)
    requires ViewOk(v, users, named) && v.secret.None? && !v.retired && secret.owner.None?
    ensures v.composite.None? && !v.gone
    ensures ViewOk(v.(secret := Some(secret)), users, named)
  {
  }

  /** What creating a password does to the view of its binding, and to nothing else. */
  lemma PasswordStep(c: System, tid: nat, fault: Fault, c': System)
    requires Next(c, AdvanceBind(tid, fault), c') && c.binders[tid].point.CreatePassword?
    requires BindStep(c.store, c.binders[tid], fault).binder.stamp != c.binders[tid].stamp
    ensures var b := c.binders[tid];
            var id := b.bindingId;
            var secret := Secret(map[PasswordKey := b.password], None, c.store.clock, c.store.clock);
            && ViewOf(c, id).secret.None? && ViewOf(c', id) == ViewOf(c, id).(secret := Some(secret))
            && OnlyAbout(c, c', id) && c'.unbinders == c.unbinders
    ensures var b' := BindStep(c.store, c.binders[tid], fault).binder;
            && c'.binders == c.binders[tid := b'] && b'.bindingId == c.binders[tid].bindingId
            && b'.stamp == Some(c.store.clock)
  {
  }

  /** While its secret has neither been stored nor collected, no Bind of a binding has created one. */
  lemma Unstamped(c: System, id: string)
    requires BindingOk(c, id) && ViewOf(c, id).secret.None? && !ViewOf(c, id).retired
    ensures forall t :: t in c.binders && c.binders[t].bindingId == id ==> c.binders[t].stamp.None?
  {
    forall t | t in c.binders && c.binders[t].bindingId == id ensures c.binders[t].stamp.None? {
      assert BinderOk(ViewOf(c, id), c.binders[t]);
    }
  }

  /** Binds and Unbinds of this id still fit after its secret has been created. */
  lemma CreatedSecretSuits(c: System, c': System, tid: nat, b': Binder, secret: Secret)
    requires Base(c) && tid in c.binders && b'.bindingId == c.binders[tid].bindingId && b'.stamp == Some(secret.uid)
    requires c'.binders == c.binders[tid := b'] && c'.unbinders == c.unbinders
    requires c'.store.users == c.store.users && c'.named == c.named && secret.owner.None?
    requires var id := b'.bindingId;
             var v, v' := ViewOf(c, id), ViewOf(c', id);
             && BindingOk(c, id) && v.secret.None? && !v.retired && v' == v.(secret := Some(secret))
    ensures BindingOk(c', b'.bindingId)
  {
    var id := b'.bindingId;
    var v, v' := ViewOf(c, id), ViewOf(c', id);
    PasswordCreated(v, c.store.users, c.named, secret);
    Unstamped(c, id);
    forall t | t in c'.binders && c'.binders[t].bindingId == id ensures BinderOk(v', c'.binders[t]) {
      if t != tid {
        assert StampOk(c.store, c.binders[t]);
      }
    }
    forall t | t in c'.unbinders && c'.unbinders[t].bindingId == id
      ensures UnbinderOk(v', c'.store.users, c'.named, c'.unbinders[t].point)
    {
      assert UnbinderOk(v, c.store.users, c.named, c.unbinders[t].point);
    }
  }

  lemma CreatePasswordSafe(c: System, tid: nat, fault: Fault, c': System)
    requires Safe(c) && Next(c, AdvanceBind(tid, fault), c') && NoReuse(c, AdvanceBind(tid, fault))
    requires c.binders[tid].point.CreatePassword?
    requires BindStep(c.store, c.binders[tid], fault).binder.stamp != c.binders[tid].stamp
    ensures Safe(c')
  {
    var id := c.binders[tid].bindingId;
    var b' := BindStep(c.store, c.binders[tid], fault).binder;
    NextKeepsBase(c, AdvanceBind(tid, fault), c');
    PasswordStep(c, tid, fault, c');
    assert BindingOk(c, id);
    Unstamped(c, id);
    CreatedSecretSuits(c, c', tid, b', ViewOf(c', id).secret.value);
    OneBindingChanged(c, c', id);
  }

  /** If one binding has changed and is fine, and no other is concerned, all are fine. */
  lemma OneBindingChanged(c: System, c': System, id: string)
    requires Safe(c) && Base(c') && OneCreator(c'.binders) && OnlyAbout(c, c', id) && BindingOk(c', id)
    requires forall t :: t in c'.binders && c'.binders[t].bindingId != id ==>
               t in c.binders && c.binders[t] == c'.binders[t]
    requires forall t :: t in c'.unbinders && c'.unbinders[t].bindingId != id ==>
               t in c.unbinders && c.unbinders[t] == c'.unbinders[t]
    requires UserOf(ViewOf(c', id)) == UserOf(ViewOf(c, id)) || UserOf(ViewOf(c', id)).None?
    ensures Safe(c')
  {
    OthersUndisturbed(c, c', id);
    SameUsers(c, c');
  }

  /** A Bind that keeps its stamp leaves the creators as they are. */
  lemma SameStamps(binders: map<nat, Binder>, tid: nat, b': Binder)
    requires OneCreator(binders) && tid in binders
    requires b'.stamp == binders[tid].stamp && b'.bindingId == binders[tid].bindingId
    ensures OneCreator(binders[tid := b'])
  {
  }

  /** If no composite changed its User, no two share one. */
  lemma SameUsers(c: System, c': System)
    requires OwnUsers(c)
    requires forall id: string :: UserOf(ViewOf(c', id)) == UserOf(ViewOf(c, id)) || UserOf(ViewOf(c', id)).None?
    ensures OwnUsers(c')
  {
    forall a: string, b: string | a != b && UserOf(ViewOf(c', a)).Some?
      ensures UserOf(ViewOf(c', a)) != UserOf(ViewOf(c', b))
    {
      assert UserOf(ViewOf(c, a)) != UserOf(ViewOf(c, b));
    }
  }

  /** Creating the user composite: the secret is there, nobody has touched the binding, and no other Bind is
      at this point. */
  lemma CompositeCreated(v: View, users: set<string>, named: set<string>, b: Binder, composite: Composite)
    requires ViewOk(v, users, named) && BinderOk(v, b) && b.point.CreateUser?
    requires composite.refs == [] && !composite.deleting
    ensures ViewOk(v.(composite := Some(composite)), users, named)
  {
  }

  /** Binds and Unbinds of this id still fit after its composite has been created. */
  lemma CreatedCompositeSuits(c: System, c': System, tid: nat, b': Binder)
    requires Safe(c) && tid in c.binders && c.binders[tid].point.CreateUser?
    requires c'.binders == c.binders[tid := b'] && c'.unbinders == c.unbinders
    requires b'.stamp == c.binders[tid].stamp && b'.bindingId == c.binders[tid].bindingId && !b'.point.CreateUser?
    requires c'.store.users == c.store.users && c'.named == c.named
    requires var id := c.binders[tid].bindingId;
             var v, v' := ViewOf(c, id), ViewOf(c', id);
             v'.composite.Some? && v' == v.(composite := v'.composite) && ViewOk(v', c.store.users, c.named)
    ensures BindingOk(c', c.binders[tid].bindingId)
  {
    var b := c.binders[tid];
    var id := b.bindingId;
    var v, v' := ViewOf(c, id), ViewOf(c', id);
    assert BindingOk(c, id) && BinderOk(v, b) && StampOk(c.store, b);
    forall t | t in c'.binders && c'.binders[t].bindingId == id ensures BinderOk(v', c'.binders[t]) {
      if t != tid {
        assert BinderOk(v, c.binders[t]) && StampOk(c.store, c.binders[t]);
      }
    }
    forall t | t in c'.unbinders && c'.unbinders[t].bindingId == id
      ensures UnbinderOk(v', c'.store.users, c'.named, c'.unbinders[t].point)
    {
      assert UnbinderOk(v, c.store.users, c.named, c.unbinders[t].point);
    }
  }

  /** What creating the composite does to the view of its binding, and to nothing else. */
  lemma CompositeStep(c: System, tid: nat, fault: Fault, c': System)
    requires Next(c, AdvanceBind(tid, fault), c') && c.binders[tid].point.CreateUser? && c'.store != c.store
    ensures var id := c.binders[tid].bindingId;
            var v' := ViewOf(c', id);
            && v'.composite.Some? && v'.composite.value.refs == [] && !v'.composite.value.deleting
            && v' == ViewOf(c, id).(composite := v'.composite)
            && OnlyAbout(c, c', id) && c'.unbinders == c.unbinders
    ensures var b, b' := c.binders[tid], BindStep(c.store, c.binders[tid], fault).binder;
            && c'.binders == c.binders[tid := b'] && b'.stamp == b.stamp && b'.bindingId == b.bindingId
            && !b'.point.CreateUser?
  {
  }

  lemma CreateUserSafe(c: System, tid: nat, fault: Fault, c': System)
    requires Safe(c) && Next(c, AdvanceBind(tid, fault), c')
    requires c.binders[tid].point.CreateUser? && c'.store != c.store
    ensures Safe(c')
  {
    var b := c.binders[tid];
    var v := ViewOf(c, b.bindingId);
    var b' := BindStep(c.store, b, fault).binder;
    NextKeepsBase(c, AdvanceBind(tid, fault), c');
    CompositeStep(c, tid, fault, c');
    assert BindingOk(c, b.bindingId) && BinderOk(v, b);
    CompositeCreated(v, c.store.users, c.named, b, ViewOf(c', b.bindingId).composite.value);
    CreatedCompositeSuits(c, c', tid, b');
    SameStamps(c.binders, tid, b');
    NoUsersYet(ViewOf(c', b.bindingId));
    OneBindingChanged(c, c', b.bindingId);
  }

  lemma NoUsersYet(v: View)
    requires v.composite.Some? && v.composite.value.refs == []
    ensures UserOf(v).None?
  {
  }

  /** The other steps of a Bind change neither the store nor what the Bind has created. */
  lemma BindReadSafe(c: System, tid: nat, fault: Fault, c': System)
    requires Safe(c) && Next(c, AdvanceBind(tid, fault), c')
    requires c'.store == c.store && c'.binders[tid].stamp == c.binders[tid].stamp
    requires c'.binders[tid].bindingId == c.binders[tid].bindingId && !c'.binders[tid].point.CreateUser?
    ensures Safe(c')
  {
    NextKeepsBase(c, AdvanceBind(tid, fault), c');
    forall id: string ensures ViewOf(c', id) == ViewOf(c, id) && BindingOk(c', id) {
      assert BindingOk(c, id);
      if id == c.binders[tid].bindingId {
        assert BinderOk(ViewOf(c, id), c.binders[tid]);
      }
      OtherBinding(c, c', id);
    }
    SameUsers(c, c');
  }

  lemma BindStepShape(s: State, b: Binder, fault: Fault)
    requires StampOk(s, b)
    ensures var st := BindStep(s, b, fault);
            && st.binder.bindingId == b.bindingId
            && (!b.point.CreatePassword? ==>
                  st.binder.stamp == b.stamp && !(st.binder.point.CreateUser? && st.binder != b))
            && (!b.point.CreatePassword? && !b.point.CreateUser? ==> st.state == s)
            && (b.point.CreatePassword? && st.binder.stamp == b.stamp ==> st.state == s && !st.binder.point.CreateUser?)
            && (b.point.CreateUser? ==> !st.binder.point.CreateUser?)
  {
  }

  lemma BindKeepsSafe(c: System, tid: nat, fault: Fault, c': System)
    requires Safe(c) && Next(c, AdvanceBind(tid, fault), c') && NoReuse(c, AdvanceBind(tid, fault))
    ensures Safe(c')
  {
    var b := c.binders[tid];
    assert StampOk(c.store, b);
    BindStepShape(c.store, b, fault);
    var st := BindStep(c.store, b, fault);
    if b.point.CreatePassword? && st.binder.stamp != b.stamp {
      CreatePasswordSafe(c, tid, fault, c');
    } else if b.point.CreateUser? && st.state != c.store {
      CreateUserSafe(c, tid, fault, c');
    } else {
      BindReadSafe(c, tid, fault, c');
    }
  }

  // ---------------------------------------------------------------- Unbind steps

  /** Reading gives an Unbind the composite's own User. */
  lemma UnbindReadOk(c: System, u: Unbinder)
    requires BindingOk(c, u.bindingId)
    requires UnbinderOk(ViewOf(c, u.bindingId), c.store.users, c.named, u.point)
    ensures UnbinderOk(ViewOf(c, u.bindingId), c.store.users, c.named, UnbindRead(c.store, u.bindingId, u.point))
  {
  }

  /** A step of an Unbind that leaves the store alone. */
  lemma UnbindQuietSafe(c: System, tid: nat, fault: Fault, c': System)
    requires Safe(c) && Next(c, AdvanceUnbind(tid, fault), c') && c'.store == c.store
    requires c.unbinders[tid].point.UpdatePassword? || c.unbinders[tid].point.DeleteUserComposite? ==>
               c'.unbinders[tid].point.UnbindDone?
    ensures Safe(c')
  {
    var u := c.unbinders[tid];
    NextKeepsBase(c, AdvanceUnbind(tid, fault), c');
    forall id: string ensures ViewOf(c', id) == ViewOf(c, id) && BindingOk(c', id) {
      assert BindingOk(c, id);
      if id == u.bindingId {
        assert UnbinderOk(ViewOf(c, id), c.store.users, c.named, u.point);
        UnbindReadOk(c, u);
      }
      OtherBinding(c, c', id);
    }
    SameUsers(c, c');
  }

  /** Marking the secret: its owner becomes the composite's User. */
  lemma SecretMarked(v: View, users: set<string>, named: set<string>, user: string, secret: Secret, p: UnbindPoint)
    requires ViewOk(v, users, named) && UnbinderOk(v, users, named, p) && UserOfPoint(p) == Some(user)
    requires v.secret.Some? && secret.owner == Some(user)
    ensures ViewOk(v.(secret := Some(secret)), users, named)
    ensures !v.retired && (v.gone || UserOf(v) == Some(user))
  {
  }

  /** What marking the secret does to the view of its binding, and to nothing else. */
  lemma OwnerStep(c: System, tid: nat, fault: Fault, c': System)
    requires Next(c, AdvanceUnbind(tid, fault), c') && c.unbinders[tid].point.UpdatePassword? && c'.store != c.store
    requires FetchOk(c.store, c.unbinders[tid])
    ensures var v, v' := ViewOf(c, c.unbinders[tid].bindingId), ViewOf(c', c.unbinders[tid].bindingId);
            && v.secret.Some? && v'.secret.Some? && v'.secret.value.uid == v.secret.value.uid
            && OwnerOf(v') == Some(c.unbinders[tid].point.user) && v' == v.(secret := v'.secret)
            && OnlyAbout(c, c', c.unbinders[tid].bindingId) && c'.binders == c.binders
    ensures var u, u' := c.unbinders[tid], c'.unbinders[tid];
            && c'.unbinders == c.unbinders[tid := u'] && u'.bindingId == u.bindingId
            && (u'.point == DeleteUserComposite(u.point.user) || u'.point.UnbindDone?)
  {
  }

  lemma UpdatePasswordSafe(c: System, tid: nat, fault: Fault, c': System)
    requires Safe(c) && Next(c, AdvanceUnbind(tid, fault), c')
    requires c.unbinders[tid].point.UpdatePassword? && c'.store != c.store
    ensures Safe(c')
  {
    var u := c.unbinders[tid];
    var v, v' := ViewOf(c, u.bindingId), ViewOf(c', u.bindingId);
    NextKeepsBase(c, AdvanceUnbind(tid, fault), c');
    assert BindingOk(c, u.bindingId) && UnbinderOk(v, c.store.users, c.named, u.point) && FetchOk(c.store, u);
    OwnerStep(c, tid, fault, c');
    SecretMarked(v, c.store.users, c.named, u.point.user, v'.secret.value, u.point);
    MarkedSecretSuits(c, c', u.bindingId, u.point.user, tid);
    OneBindingChanged(c, c', u.bindingId);
  }

  /** Binds and Unbinds of this id still fit after its secret has been marked. */
  lemma MarkedSecretSuits(c: System, c': System, id: string, user: string, tid: nat)
    requires BindingOk(c, id) && c'.store.users == c.store.users && c'.named == c.named && c'.binders == c.binders
    requires var v, v' := ViewOf(c, id), ViewOf(c', id);
             && v.secret.Some? && v' == v.(secret := v'.secret) && v'.secret.Some?
             && v'.secret.value.uid == v.secret.value.uid && OwnerOf(v') == Some(user)
             && !v.retired && (v.gone || UserOf(v) == Some(user))
             && ViewOk(v', c.store.users, c.named)
    requires tid in c.unbinders && c.unbinders[tid].bindingId == id && UserOfPoint(c.unbinders[tid].point) == Some(user)
    requires c'.unbinders.Keys == c.unbinders.Keys
    requires forall t :: t in c.unbinders && t != tid ==> c'.unbinders[t] == c.unbinders[t]
    requires c'.unbinders[tid].point == DeleteUserComposite(user) || c'.unbinders[tid].point.UnbindDone?
    ensures BindingOk(c', id)
  {
    var v, v' := ViewOf(c, id), ViewOf(c', id);
    forall t | t in c'.binders && c'.binders[t].bindingId == id ensures BinderOk(v', c'.binders[t]) {
      assert BinderOk(v, c.binders[t]);
    }
    forall t | t in c'.unbinders && c'.unbinders[t].bindingId == id
      ensures UnbinderOk(v', c'.store.users, c'.named, c'.unbinders[t].point)
    {
      assert UnbinderOk(v, c.store.users, c.named, c.unbinders[tid].point);
      if t != tid {
        assert UnbinderOk(v, c.store.users, c.named, c.unbinders[t].point);
      }
    }
  }

  /** Marking the composite for deletion: its secret is already owned by its User. */
  lemma CompositeMarked(v: View, users: set<string>, named: set<string>, p: UnbindPoint, composite: Composite)
    requires ViewOk(v, users, named) && UnbinderOk(v, users, named, p) && p.DeleteUserComposite?
    requires v.composite.Some? && composite.refs == v.composite.value.refs && composite.deleting
    ensures ViewOk(v.(composite := Some(composite)), users, named)
  {
  }

  /** What marking the composite does to the view of its binding, and to nothing else. */
  lemma MarkStep(c: System, tid: nat, fault: Fault, c': System)
    requires Next(c, AdvanceUnbind(tid, fault), c')
    requires c.unbinders[tid].point.DeleteUserComposite? && c'.store != c.store
    ensures var v, v' := ViewOf(c, c.unbinders[tid].bindingId), ViewOf(c', c.unbinders[tid].bindingId);
            && v.composite.Some? && v'.composite.Some? && v'.composite.value.refs == v.composite.value.refs
            && v'.composite.value.deleting && v' == v.(composite := v'.composite)
            && OnlyAbout(c, c', c.unbinders[tid].bindingId) && c'.binders == c.binders
    ensures var u' := c'.unbinders[tid];
            && c'.unbinders == c.unbinders[tid := u'] && u'.bindingId == c.unbinders[tid].bindingId
            && u'.point.UnbindDone?
  {
  }

  /** Binds and Unbinds of this id still fit after its composite has been marked. */
  lemma MarkedCompositeSuits(c: System, c': System, id: string, tid: nat)
    requires BindingOk(c, id) && c'.store.users == c.store.users && c'.named == c.named && c'.binders == c.binders
    requires tid in c.unbinders && c.unbinders[tid].bindingId == id && c.unbinders[tid].point.DeleteUserComposite?
    requires tid in c'.unbinders && c'.unbinders == c.unbinders[tid := c'.unbinders[tid]]
    requires c'.unbinders[tid].point.UnbindDone?
    requires var v, v' := ViewOf(c, id), ViewOf(c', id);
             && v.composite.Some? && v'.composite.Some? && v'.composite.value.refs == v.composite.value.refs
             && v'.composite.value.deleting && v' == v.(composite := v'.composite)
    ensures BindingOk(c', id)
  {
    var v, v' := ViewOf(c, id), ViewOf(c', id);
    assert UnbinderOk(v, c.store.users, c.named, c.unbinders[tid].point);
    CompositeMarked(v, c.store.users, c.named, c.unbinders[tid].point, v'.composite.value);
    forall t | t in c'.binders && c'.binders[t].bindingId == id ensures BinderOk(v', c'.binders[t]) {
      assert BinderOk(v, c.binders[t]);
    }
    forall t | t in c'.unbinders && c'.unbinders[t].bindingId == id
      ensures UnbinderOk(v', c'.store.users, c'.named, c'.unbinders[t].point)
    {
      assert t == tid || UnbinderOk(v, c.store.users, c.named, c.unbinders[t].point);
    }
  }

  lemma DeleteCompositeSafe(c: System, tid: nat, fault: Fault, c': System)
    requires Safe(c) && Next(c, AdvanceUnbind(tid, fault), c')
    requires c.unbinders[tid].point.DeleteUserComposite? && c'.store != c.store
    ensures Safe(c')
  {
    var id := c.unbinders[tid].bindingId;
    NextKeepsBase(c, AdvanceUnbind(tid, fault), c');
    MarkStep(c, tid, fault, c');
    MarkedCompositeSuits(c, c', id, tid);
    OneBindingChanged(c, c', id);
  }

  lemma UnbindStepShape(s: State, id: string, point: UnbindPoint, fault: Fault)
    ensures var st := UnbindStep(s, id, point, fault);
            && (st.state != s ==> point.UpdatePassword? || point.DeleteUserComposite?)
            && (st.state == s && (point.UpdatePassword? || point.DeleteUserComposite?) ==> st.point.UnbindDone?)
  {
  }

  lemma UnbindKeepsSafe(c: System, tid: nat, fault: Fault, c': System)
    requires Safe(c) && Next(c, AdvanceUnbind(tid, fault), c')
    ensures Safe(c')
  {
    var u := c.unbinders[tid];
    UnbindStepShape(c.store, u.bindingId, u.point, fault);
    if c'.store == c.store {
      UnbindQuietSafe(c, tid, fault, c');
    } else if u.point.UpdatePassword? {
      UpdatePasswordSafe(c, tid, fault, c');
    } else {
      DeleteCompositeSafe(c, tid, fault, c');
    }
  }

  // ---------------------------------------------------------------- Controller and garbage collector

  lemma EnvironmentOf(c: System, c': System, id: string)
    requires BindingOk(c, id) && c'.binders == c.binders && c'.unbinders == c.unbinders
    requires ViewOk(ViewOf(c', id), c'.store.users, c'.named)
    requires forall t | t in c.binders && c.binders[t].bindingId == id ::
               BinderOk(ViewOf(c, id), c.binders[t]) ==> BinderOk(ViewOf(c', id), c.binders[t])
    requires forall t | t in c.unbinders && c.unbinders[t].bindingId == id ::
               UnbinderOk(ViewOf(c, id), c.store.users, c.named, c.unbinders[t].point) ==>
                 UnbinderOk(ViewOf(c', id), c'.store.users, c'.named, c.unbinders[t].point)
    ensures BindingOk(c', id)
  {
  }

  lemma FinishSafe(c: System, id: string, c': System)
    requires Safe(c) && Next(c, Finish(id), c')
    ensures Safe(c')
  {
    NextKeepsBase(c, Finish(id), c');
    var v, v' := ViewOf(c, id), ViewOf(c', id);
    assert BindingOk(c, id);
    assert v' == v.(composite := None, gone := true);
    assert OnlyAbout(c, c', id);
    OthersUndisturbed(c, c', id);
    EnvironmentOf(c, c', id);
    SameUsers(c, c');
  }

  lemma CollectSafe(c: System, id: string, c': System)
    requires Safe(c) && Next(c, Collect(id), c')
    ensures Safe(c')
  {
    NextKeepsBase(c, Collect(id), c');
    var v, v' := ViewOf(c, id), ViewOf(c', id);
    assert BindingOk(c, id);
    assert v' == v.(secret := None, retired := true);
    assert OnlyAbout(c, c', id);
    OthersUndisturbed(c, c', id);
    EnvironmentOf(c, c', id);
    SameUsers(c, c');
  }

  lemma DropUserSafe(c: System, id: string, c': System)
    requires Safe(c) && Next(c, DropUser(id), c')
    ensures Safe(c')
  {
    NextKeepsBase(c, DropUser(id), c');
    forall other: string ensures ViewOf(c', other) == ViewOf(c, other) && BindingOk(c', other) {
      assert BindingOk(c, other) && BindingOk(c, id);
      OtherBinding(c, c', other);
    }
    SameUsers(c, c');
  }

  lemma ElsewhereSafe(c: System, s': State, c': System)
    requires Safe(c) && Next(c, Elsewhere(s'), c')
    ensures Safe(c')
  {
    NextKeepsBase(c, Elsewhere(s'), c');
    forall id: string ensures ViewOf(c', id) == ViewOf(c, id) && BindingOk(c', id) {
      assert BindingOk(c, id);
      OtherBinding(c, c', id);
    }
    SameUsers(c, c');
  }

  /** A User has been created for a composite that had none. */
  lemma UserComposed(v: View, users: set<string>, named: set<string>, user: string, composite: Composite)
    requires ViewOk(v, users, named) && Live(v) && UserOf(v).None?
    requires LastUser(composite.refs) == Some(user) && !composite.deleting
    ensures ViewOk(v.(composite := Some(composite)), users + {user}, named + {user})
  {
  }

  /** What composing a User does to the view of its binding; other bindings keep theirs. */
  lemma ComposeStep(c: System, id: string, refs: seq<ResourceRef>, c': System)
    requires Next(c, Compose(id, refs), c')
    ensures forall other: string :: other != id ==> ViewOf(c', other) == ViewOf(c, other)
    ensures c'.binders == c.binders && c'.unbinders == c.unbinders && c'.named == c.named + {LastUser(refs).value}
    ensures var v, v' := ViewOf(c, id), ViewOf(c', id);
            if Live(v) && UserOf(v).None? then
              && v'.composite.Some? && !v'.composite.value.deleting && v'.composite.value.refs == refs
              && v' == v.(composite := v'.composite) && c'.store.users == c.store.users + {LastUser(refs).value}
            else c'.store == c.store && v' == v
  {
  }

  lemma OthersKeepUsers(c: System, c': System, id: string)
    requires Safe(c) && c'.binders == c.binders && c'.unbinders == c.unbinders
    requires forall other: string :: other != id ==> ViewOf(c', other) == ViewOf(c, other)
    requires forall v: View :: UsersFit(v, c.store.users, c.named, c'.store.users, c'.named)
    ensures forall other: string :: other != id ==> BindingOk(c', other)
  {
    forall other: string | other != id ensures BindingOk(c', other) {
      OtherBinding(c, c', other);
    }
  }

  lemma ComposeSafe(c: System, id: string, refs: seq<ResourceRef>, c': System)
    requires Safe(c) && Next(c, Compose(id, refs), c')
    ensures Safe(c')
  {
    NextKeepsBase(c, Compose(id, refs), c');
    ComposeStep(c, id, refs, c');
    OthersKeepUsers(c, c', id);
    var user := LastUser(refs).value;
    var v, v' := ViewOf(c, id), ViewOf(c', id);
    assert BindingOk(c, id);
    if Live(v) && UserOf(v).None? {
      UserComposed(v, c.store.users, c.named, user, v'.composite.value);
      EnvironmentOf(c, c', id);
      NewUserIsOwn(c, c', id, user);
    } else {
      OtherBinding(c, c', id);
      SameUsers(c, c');
    }
  }

  lemma NewUserIsOwn(c: System, c': System, id: string, user: string)
    requires Safe(c) && user !in c.named
    requires UserOf(ViewOf(c', id)) == Some(user)
    requires forall other: string :: other != id ==> ViewOf(c', other) == ViewOf(c, other)
    ensures OwnUsers(c')
  {
    forall a: string, b: string | a != b && UserOf(ViewOf(c', a)).Some?
      ensures UserOf(ViewOf(c', a)) != UserOf(ViewOf(c', b))
    {
      assert BindingOk(c, a) && BindingOk(c, b);
    }
  }

  lemma SpawnSafe(c: System, mv: Move, c': System)
    requires Safe(c) && Next(c, mv, c') && (mv.SpawnBind? || mv.SpawnUnbind?)
    ensures Safe(c')
  {
    NextKeepsBase(c, mv, c');
    forall id: string ensures ViewOf(c', id) == ViewOf(c, id) && BindingOk(c', id) {
      assert BindingOk(c, id);
      OtherBinding(c, c', id);
    }
    SameUsers(c, c');
  }

  // ---------------------------------------------------------------- Runs

  lemma InitialSafe(c: System)
    requires Initial(c)
    ensures Safe(c)
  {
    forall id: string ensures BindingOk(c, id) {
      assert ViewOf(c, id) == View(None, None, false, false);
    }
  }

  /** While no binding id is reused, every move keeps the protocol safe. */
  lemma NextKeepsSafe(c: System, mv: Move, c': System)
    requires Safe(c) && Next(c, mv, c') && NoReuse(c, mv)
    ensures Safe(c')
  {
    match mv
    case SpawnBind(_, _, _, _) => SpawnSafe(c, mv, c');
    case SpawnUnbind(_, _) => SpawnSafe(c, mv, c');
    case AdvanceBind(tid, fault) => BindKeepsSafe(c, tid, fault, c');
    case AdvanceUnbind(tid, fault) => UnbindKeepsSafe(c, tid, fault, c');
    case Compose(id, refs) => ComposeSafe(c, id, refs, c');
    case DropUser(id) => DropUserSafe(c, id, c');
    case Collect(id) => CollectSafe(c, id, c');
    case Finish(id) => FinishSafe(c, id, c');
    case Elsewhere(s') => ElsewhereSafe(c, s', c');
  }
}
