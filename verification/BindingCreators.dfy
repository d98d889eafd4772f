/** Which Bind created the secret of a binding, with nothing assumed about the clients. */
module BindingCreators {
  import opened Types
  import opened Store
  import opened Interleaving
  import opened Bindings
  import opened BindingSafety

  // ---------------------------------------------------------------- The invariants

  /** The secret that the Bind created is the one stored, unless the id's secret has been collected. */
  ghost predicate StampHeld(c: System, b: Binder)
  {
    b.stamp.Some? ==>
      b.bindingId in c.retired
      || (BindingPassword(b.bindingId) in c.store.secrets
          && c.store.secrets[BindingPassword(b.bindingId)].uid == b.stamp.value)
  }

  ghost predicate Held(c: System)
  {
    forall t :: t in c.binders ==> StampHeld(c, c.binders[t])
  }

  ghost predicate HasCreator(binders: map<nat, Binder>, id: string)
  {
    exists t :: t in binders && binders[t].bindingId == id && binders[t].stamp.Some?
  }

  predicate StoredOrRetired(c: System, id: string)
  {
    BindingPassword(id) in c.store.secrets || id in c.retired
  }

  /** Every secret that is stored or has been collected was created by a Bind. */
  ghost predicate Created(c: System)
  {
    forall id: string :: StoredOrRetired(c, id) ==> HasCreator(c.binders, id)
  }

  // ---------------------------------------------------------------- Steps and secrets

  /** A step of a Bind creates its secret, or leaves all secrets and its stamp alone. */
  lemma BindStepSecrets(s: State, b: Binder, fault: Fault)
    ensures var st := BindStep(s, b, fault);
            var name := BindingPassword(b.bindingId);
            && st.binder.bindingId == b.bindingId
            && if st.state.secrets == s.secrets then st.binder.stamp == b.stamp
               else
                 && b.point.CreatePassword? && name !in s.secrets && st.binder.stamp == Some(s.clock)
                 && name in st.state.secrets && st.state.secrets[name].uid == s.clock
                 && st.state.secrets - {name} == s.secrets
  {
  }

  /** A step of an Unbind keeps every secret's uid. */
  lemma UnbindStepSecrets(s: State, u: Unbinder, fault: Fault)
    requires FetchOk(s, u)
    ensures var s' := UnbindStep(s, u.bindingId, u.point, fault).state;
            && s'.secrets.Keys == s.secrets.Keys
            && forall name :: name in s.secrets ==> s'.secrets[name].uid == s.secrets[name].uid
  {
  }

  // ---------------------------------------------------------------- Every move keeps them

  lemma BindKeepsHeld(c: System, tid: nat, fault: Fault, c': System)
    requires Base(c) && Held(c) && Next(c, AdvanceBind(tid, fault), c')
    ensures Held(c')
  {
    BindStepSecrets(c.store, c.binders[tid], fault);
    forall t | t in c'.binders ensures StampHeld(c', c'.binders[t]) {
      assert StampHeld(c, c.binders[t]);
      var name := BindingPassword(c.binders[t].bindingId);
      assert name in c.store.secrets ==> name in c'.store.secrets && c'.store.secrets[name] == c.store.secrets[name];
    }
  }

  lemma UnbindKeepsHeld(c: System, tid: nat, fault: Fault, c': System)
    requires Base(c) && Held(c) && Next(c, AdvanceUnbind(tid, fault), c')
    ensures Held(c')
  {
    UnbindStepSecrets(c.store, c.unbinders[tid], fault);
    forall t | t in c'.binders ensures StampHeld(c', c'.binders[t]) {
      assert StampHeld(c, c.binders[t]);
    }
  }

  lemma EnvironmentKeepsHeld(c: System, mv: Move, c': System)
    requires Held(c) && Next(c, mv, c') && !mv.AdvanceBind? && !mv.AdvanceUnbind?
    ensures Held(c')
  {
    forall t | t in c'.binders ensures StampHeld(c', c'.binders[t]) {
      assert t in c.binders ==> StampHeld(c, c.binders[t]);
    }
  }

  lemma NextKeepsHeld(c: System, mv: Move, c': System)
    requires Base(c) && Held(c) && Next(c, mv, c')
    ensures Held(c')
  {
    match mv
    case AdvanceBind(tid, fault) => BindKeepsHeld(c, tid, fault, c');
    case AdvanceUnbind(tid, fault) => UnbindKeepsHeld(c, tid, fault, c');
    case _ => EnvironmentKeepsHeld(c, mv, c');
  }

  /** Creators stay. */
  lemma CreatorStays(c: System, mv: Move, c': System, id: string)
    requires Next(c, mv, c') && HasCreator(c.binders, id)
    ensures HasCreator(c'.binders, id)
  {
    var t :| t in c.binders && c.binders[t].bindingId == id && c.binders[t].stamp.Some?;
    if mv.AdvanceBind? && mv.tid == t {
      BindStepSecrets(c.store, c.binders[t], mv.fault);
    }
    assert t in c'.binders && c'.binders[t].bindingId == id && c'.binders[t].stamp.Some?;
  }

  /** Only a Bind of its own stores a secret, and only a stored secret is collected. */
  lemma NewSecretHasCreator(c: System, mv: Move, c': System, id: string)
    requires Base(c) && Next(c, mv, c') && StoredOrRetired(c', id) && !StoredOrRetired(c, id)
    ensures HasCreator(c'.binders, id)
  {
    match mv
    case AdvanceBind(tid, fault) =>
      BindStepSecrets(c.store, c.binders[tid], fault);
      assert tid in c'.binders && c'.binders[tid].bindingId == id && c'.binders[tid].stamp.Some?;
    case AdvanceUnbind(tid, fault) => UnbindStepSecrets(c.store, c.unbinders[tid], fault);
    case _ =>
  }

  lemma NextKeepsCreated(c: System, mv: Move, c': System)
    requires Base(c) && Created(c) && Next(c, mv, c')
    ensures Created(c')
  {
    forall id: string | StoredOrRetired(c', id) ensures HasCreator(c'.binders, id) {
      if StoredOrRetired(c, id) {
        CreatorStays(c, mv, c', id);
      } else {
        NewSecretHasCreator(c, mv, c', id);
      }
    }
  }

  // ---------------------------------------------------------------- When a binding gets a second creator

  /** Creating a secret for an id whose secret was collected gives the id a second creator. */
  lemma ReuseAddsCreator(c: System, tid: nat, fault: Fault, c': System)
    requires Base(c) && Created(c) && Next(c, AdvanceBind(tid, fault), c')
    requires !NoReuse(c, AdvanceBind(tid, fault)) && c'.store != c.store
    ensures !OneCreator(c'.binders)
  {
    var id := c.binders[tid].bindingId;
    assert StoredOrRetired(c, id);
    var t :| t in c.binders && c.binders[t].bindingId == id && c.binders[t].stamp.Some?;
    assert StampOk(c.store, c.binders[tid]);
    PasswordStep(c, tid, fault, c');
    assert c'.binders[t].stamp.Some? && c'.binders[tid].stamp.Some?;
  }

  /** A Bind that finds the secret name taken, or whose call is lost, changes nothing and creates nothing. */
  lemma IdleBindSafe(c: System, tid: nat, fault: Fault, c': System)
    requires Safe(c) && Next(c, AdvanceBind(tid, fault), c') && c'.store == c.store
    ensures Safe(c')
  {
    assert StampOk(c.store, c.binders[tid]);
    BindStepShape(c.store, c.binders[tid], fault);
    BindReadSafe(c, tid, fault, c');
  }

  /** Exactly when a step keeps the protocol safe, and exactly when it keeps at most one Bind per binding id
      that has created a secret: unless it stores a secret for an id whose secret has been collected. */
  lemma SafetyIff(c: System, mv: Move, c': System)
    requires Safe(c) && Created(c) && Next(c, mv, c')
    ensures Safe(c') <==> NoReuse(c, mv) || c'.store == c.store
    ensures OneCreator(c'.binders) <==> NoReuse(c, mv) || c'.store == c.store
  {
    if NoReuse(c, mv) {
      NextKeepsSafe(c, mv, c');
    } else if c'.store == c.store {
      IdleBindSafe(c, mv.tid, mv.fault, c');
    } else {
      ReuseAddsCreator(c, mv.tid, mv.fault, c');
    }
  }
}
