/** The Kubernetes object store: the only state of the broker. */
module Store {
  import opened Types
  import opened Metadata

  // ---------------------------------------------------------------- Names

  /** The composite kinds the broker names; every other kind is an `OtherKind`. */
  datatype Kind = RedisKind | MariaDBKind | DatabaseKind | UserKind | OtherKind(name: string)

  datatype Gvk = Gvk(group: string, version: string, kind: Kind)

  datatype Key = Key(gvk: Gvk, name: string)

  function SynTools(kind: Kind): Gvk
  {
    Gvk("syn.tools", "v1alpha1", kind)
  }

  /** The composite type that implements a service. */
  function ServiceGvk(service: Service): Gvk
  {
    match service
    case Redis => SynTools(RedisKind)
    case MariaDB => SynTools(MariaDBKind)
    case MariaDBDatabase => SynTools(DatabaseKind)
  }

  /** The composite type of service instances, as opposed to bindings and unrelated objects. */
  ghost predicate InstanceGvk(gvk: Gvk)
  {
    exists service :: gvk == ServiceGvk(service)
  }

  /** `BindingPassword(id)` is the secret `{id}-password` in the broker's namespace. */
  datatype SecretName = BindingPassword(id: string) | External(namespace: string, name: string)

  datatype SecretKey = PasswordKey | EndpointKey | PortKey | SentinelPortKey | OtherData(key: string)

  // ---------------------------------------------------------------- Parameters

  datatype ParamKey = Tls | ParentReference | OtherParam(name: string)

  datatype Value =
    | Null
    | Bool(b: bool)
    | Number(literal: string)
    | Str(s: string)
    | Array(items: seq<Value>)
    | Object(fields: map<string, Value>)

  type Params = map<ParamKey, Value>

  // ---------------------------------------------------------------- Objects

  datatype RefKind = UserRef | OtherRef(kind: string)

  datatype ResourceRef = ResourceRef(kind: RefKind, name: string)

  /** A composite. `ready`, `refs` and `connection` are maintained by the controller; `version` is the
      resource version. */
  datatype Composite = Composite(
    labels: LabelMap,
    params: Params,
    compositionRef: string,
    ready: bool,
    deleting: bool,
    refs: seq<ResourceRef>,
    connection: Option<SecretName>,
    version: nat
  )

  /** A secret. `uid` tells apart two secrets that existed under one name at different times; `owner` is
      the User object the secret is collected with. */
  datatype Secret = Secret(data: map<SecretKey, string>, owner: Option<string>, uid: nat, version: nat)

  /** `users` holds the names of the User objects; `clock` is the next resource version. With `strict`
      the API server enforces the schema of database instances. */
  datatype State = State(
    composites: map<Key, Composite>,
    secrets: map<SecretName, Secret>,
    users: set<string>,
    clock: nat,
    strict: bool
  )

  /** What a request leaves behind and what it answers. */
  datatype Outcome<+T> = Outcome(state: State, reply: Result<T>)

  // ---------------------------------------------------------------- Calls

  function Get(s: State, key: Key): Result<Composite>
  {
    if key in s.composites then Ok(s.composites[key]) else Err(NotFound)
  }

  /** The schema of database instances requires a textual parent reference. */
  predicate Admits(s: State, key: Key, params: Params)
  {
    s.strict && key.gvk == SynTools(DatabaseKind) ==> ParentReference in params && params[ParentReference].Str?
  }

  function Put(s: State, key: Key, c: Composite): State
  {
    s.(composites := s.composites[key := c.(version := s.clock)], clock := s.clock + 1)
  }

  function Create(s: State, key: Key, c: Composite): Result<State>
  {
    if key.name == "" || !Admits(s, key, c.params) then Err(SchemaViolation)
    else if key in s.composites then Err(AlreadyExists)
    else Ok(Put(s, key, c))
  }

  /** Update is a compare-and-swap on the resource version. */
  function Update(s: State, key: Key, c: Composite): Result<State>
  {
    if key !in s.composites then Err(NotFound)
    else if s.composites[key].version != c.version then Err(Conflict)
    else if !Admits(s, key, c.params) then Err(SchemaViolation)
    else Ok(Put(s, key, c))
  }

  function Delete(s: State, key: Key): Result<State>
  {
    if key !in s.composites then Err(NotFound)
    else Ok(s.(composites := s.composites - {key}, clock := s.clock + 1))
  }

  /** Deletion in the foreground only marks the object; the garbage collector removes it later. */
  function DeleteForeground(s: State, key: Key): Result<State>
  {
    if key !in s.composites then Err(NotFound)
    else Ok(Put(s, key, s.composites[key].(deleting := true)))
  }

  function GetSecret(s: State, name: SecretName): Result<Secret>
  {
    if name in s.secrets then Ok(s.secrets[name]) else Err(NotFound)
  }

  function CreateSecret(s: State, name: SecretName, data: map<SecretKey, string>): Result<State>
  {
    if name in s.secrets then Err(AlreadyExists)
    else Ok(s.(secrets := s.secrets[name := Secret(data, None, s.clock, s.clock)], clock := s.clock + 1))
  }

  function UpdateSecret(s: State, name: SecretName, secret: Secret): Result<State>
  {
    if name !in s.secrets then Err(NotFound)
    else if s.secrets[name].version != secret.version then Err(Conflict)
    else Ok(s.(secrets := s.secrets[name := secret.(version := s.clock)], clock := s.clock + 1))
  }

  /** The names of the database instances labelled with a parent. */
  function Children(s: State, parent: string): set<string>
  {
    set key | key in s.composites && IsChild(key, s.composites[key], parent) :: key.name
  }

  predicate IsChild(key: Key, c: Composite, parent: string)
  {
    && key.gvk == SynTools(DatabaseKind)
    && ParentIdLabel in c.labels
    && c.labels[ParentIdLabel] == parent
  }

  lemma ChildrenMeaning(s: State, parent: string, name: string)
    ensures name in Children(s, parent)
            <==> var key := Key(SynTools(DatabaseKind), name);
                 key in s.composites && IsChild(key, s.composites[key], parent)
  {
    var key := Key(SynTools(DatabaseKind), name);
    if key in s.composites && IsChild(key, s.composites[key], parent) {
      assert key.name == name;
    }
  }

  // ---------------------------------------------------------------- Versions

  /** Resource versions are below the clock, and no two objects share one. */
  ghost predicate VersionsOk(s: State)
  {
    && (forall k :: k in s.composites ==> s.composites[k].version < s.clock)
    && (forall k, l :: k in s.composites && l in s.composites && s.composites[k].version == s.composites[l].version ==>
          k == l)
  }

  lemma PutKeepsVersions(s: State, key: Key, c: Composite)
    requires VersionsOk(s)
    ensures VersionsOk(Put(s, key, c))
  {
  }
}
