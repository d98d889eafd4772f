# Crossplane service broker: verified model

The broker answers Open Service Broker requests (provision, update, deprovision, bind, unbind, fetch) and keeps no
state of its own: everything is in the Kubernetes object store. An instance is a composite object whose labels say
which service and plan it belongs to; a database binding is a user composite together with a password secret. This
project models the store, the plan catalog and the requests, and proves what holds after every request, over every
run of requests one after another, and in every interleaving of their single API calls.

| file | contents |
|---|---|
| `Types`, `Strings` | results and error kinds; the laws of `Split`, `Join`, `Index`, `Replace` and `TrimSpace` that the rest needs |
| `Metadata`, `PlanPolicy`, `ServiceIds` | labels, plan sizes cut out of plan names, the plan-change rules and their text format, the configured service ids |
| `Store`, `Catalog` | the object store with resource versions; compositions, plans, their listing and sorting |
| `Requests` | every request as a function of the store: reads, a decision, writes |
| `Broker` | the same requests as they run: objects with mutable state and loops, each method proved equal to its function, and each request to keep what it promises |
| `Instances` | the invariant of service instances, lookups with and without the plan |
| `SerialRuns`, `Lifecycle`, `ParentParameters` | requests one after another: parent references, teardown, what undoes what, what is reported, what a Bind hands out |
| `Admission`, `Answers` | exactly which Provisions, Updates, Binds and Unbinds succeed, and what each request answers in every case |
| `Interleaving`, `Concurrency` | Provision, Update and Deprovision call by call, any number at once, with lost requests and lost replies |
| `Replies` | what an answer given among other requests, by one whose calls may fail, says about the store |
| `Overlap`, `Race` | which overlaps of these leave a database without its parent, and which do not |
| `Bindings`, `BindingSafety`, `BindingCreators`, `BindingRuns`, `BindingReuse` | Bind and Unbind call by call, with the controller and the garbage collector; which Bind created a secret; what becomes of a binding id |
| `Together` | both interleaved systems on one store, whose runs are runs of either |

The layers are connected. The methods of `Broker` are proved against the functions of `Requests`; the small-step
programs of `Interleaving` and `Bindings`, when nothing comes between their calls, are proved to do what those functions
do (`AloneProvisionIsAtomic` and its siblings). The two small-step systems are parts of one: whatever a part does is
something the other part's environment may do (`RunsProject`). The programs of `Bindings` begin where a request has found
a database instance ready: `BindAloneIsAtomic` and `UnbindAloneIsAtomic` are about `BindDatabase` and `UnbindDatabase`.
The lookup before that only reads, and a program may begin with any instance, so the results hold whatever it found.

## Assumptions

- The catalog is fixed during a run. Compositions have names; one that belongs to a service builds that service's
  composite type (`pkg/integration/integration.go:146-156`); the composite type and the plan name identify one composition.
- The API server lists exactly the compositions that carry the id of a configured service, in any order and possibly
  repeating some. The source sorts them with a sort that is not stable; the model sorts stably, and since the listing is
  arbitrary, what is proved covers every outcome of the unstable sort (`SortedIsFixed`).
- Create fails if the name exists or is empty; Update is a compare-and-swap on the resource version; every write takes a
  new version, and no two objects share one. With `strict`, the API server enforces that a database has a textual
  `parent_reference` (`testdata/crds/compositemariadbdatabaseinstances.syn.tools.yaml:94-101`).
- Deleting a service instance removes it at once. A binding is deleted in the foreground: it is first marked, its User
  goes, the secret owned by the User is collected, and the composite goes last, in any order the rules allow.
- The controller may rewrite readiness, resource references and the connection secret reference of an instance at any
  time, and readiness and connection of a user composite. It creates one User per user composite, under a name never used
  before, so that the name stands for the UID.
- Clients do not send a Bind for a binding id after an Unbind for it, nor an Unbind while a Bind for it is still before its
  first write. Results that need this name it (`Disciplined`); a client can check it against what it has sent and what
  has been answered.
- A JSON parameter document is absent, empty, malformed or an object. Passwords, the principal of a request and the order
  of a listing are inputs. A failed Go type assertion is the error `Panic` and aborts the request where it stands.
- Label keys, kinds and parameter names that the source mentions are constructors; all other names are one further
  constructor each.

## What turned out to be false, and exactly when it holds

- An Update without parameters wipes the stored parameters: they survive exactly when there were none
  (`PlainUpdateKeepsParamsIff`).
- The parent label and the parent parameter of a database agree after an Update exactly when the request names the
  labelled parent (`UpdateAgreesIff`); any database can be made to disagree (`ReparentingDiverges`). Referential integrity is therefore
  stated for the label.
- Where the schema of databases is enforced, an Update of a database that carries no parameters always fails, because it
  writes an empty parameter map; otherwise it succeeds if plan and rules allow it (`UpdateSucceedsIff`).
- Parent integrity can break when requests overlap: from every state with an unused cluster, one Provision and one
  Deprovision can interleave so that both succeed and the new database has no parent (`RaceBreaksParents`). In any
  interleaving, a step breaks it exactly if it creates a database whose labelled cluster is not stored, or deletes a
  cluster in use (`NextKeepsParentsIff`); and it holds in every interleaving in which no Deprovision of a cluster is in
  flight together with the creation of a database on it (`ParentsExistWithoutOverlap`).
- A Bind that has written anything cannot be repeated until its secret is collected, not even after a failure between
  its two writes, when no credentials were returned (`BindStaysRefused`, `HalfwayBindIsNotRetryable`).
- More than one Bind per binding id can return credentials, but only once the id's secret has been collected, whatever
  clients do (`AtMostOneBindReturns`). A step gives an id a second creator, and breaks the safety of the protocol,
  exactly if it stores a secret for an id whose secret has been collected (`SafetyIff`). That never happens if clients
  send no Bind after an Unbind and no Unbind before a Bind's first write (`DisciplinedBindsReturnOnce`). Neither half can
  be dropped: without the first, a Bind sent after everything has been collected returns again (`ReuseReturnsTwice`);
  without the second, a Bind that was in flight all along does (`EarlyUnbindReturnsTwice`).
- A planless lookup agrees with the planned one exactly if every composition of every configured service has labels that
  parse: a single one that does not makes every planless request fail, while planned ones go on working
  (`PlanlessFindsThePlan`).
- A planless lookup that finds nothing fails with another error than a planned one (`PlanlessMissIff`); the two lookups
  agree on what they find, not on how they fail.
- The size is recovered from a plan name `{size}-{sla}` exactly when the part of the size from the first `-{sla}` of the
  name on commutes with `-{sla}` (`PlanSizeRecovered`); the size `x-a` with the SLA `a-` is lost
  (`OverlappingSuffixLosesSize`).
- The comment on Update (`pkg/brokerapi/broker.go:313`) speaks of changing the SLA only. The code also changes sizes, by
  the size rules; the model follows the code.

## Model

| member | source | states |
|---|---|---|
| Concurrency.PlanChangesAreAllowed | pkg/brokerapi/broker.go:317-359 | In every interleaving of any number of requests, with calls lost or their replies lost, a step that changes an instance's plan is an Update call whose snapshot is the object stored just before, and the rules allow the change from that stored plan: no decision on a stale plan commits |
| Concurrency.LifeOfAnInstance | pkg/brokerapi/broker.go:314-362 | As long as an instance exists, in every interleaving, its service, service id, instance id and parent label stay, and its size and SLA are reachable from the original ones in the reflexive and transitive closure of the size rules and of the SLA rules |
| Concurrency.CommitIsFresh | pkg/crossplane/client.go:286-298 | A versioned write of an Update that succeeds hit the very object the request had fetched, under the same key |
| Concurrency.NextOk | pkg/brokerapi/broker.go:78-140 | Each step of any request, of the controller and of bindings keeps every instance well formed, every version unique and every snapshot honest, and creates, changes, moves or removes at most one instance. What the answers mean is in `Replies.AnswersAreTrue` |
| Replies.AnswersAreTrue | pkg/brokerapi/broker.go:108-114 | In every interleaving, with calls failing: a request that answers that it has changed something has in that step added, rewritten or removed the instance it names and nothing else; "already there" is answered only of a stored instance of that plan, and changes nothing; an error whose last call did not fail, or was lost on the way, changes nothing in that step |
| Replies.FaultsAreReported | pkg/brokerapi/broker.go:108-111 | A failed call is answered as failed; lost on the way it has changed nothing, with only its reply lost it has changed what it would have |
| Replies.UnboundIsTrue | pkg/crossplane/service_mariadb_database.go:112-121 | An Unbind that answers that it is done has in that step marked the binding's composite for deletion and nothing else |
| Replies.BoundIsTrue | pkg/crossplane/service_mariadb_database.go:96-109 | A Bind that answers with credentials has in that step only read, and hands out the endpoint it had read, its own password and id, and the labelled cluster as stored |
| Replies.BindFaultsAreReported | pkg/crossplane/service_mariadb_database.go:66-109 | A failed call of a Bind is answered as failed, with the effect it would have had or none |
| Replies.UnbindFaultsAreReported | pkg/crossplane/service_mariadb_database.go:112-166 | A failed call of an Unbind is answered as failed, with the effect it would have had or none |
| BindingRuns.AtMostOneBindReturns | pkg/crossplane/service_mariadb_database.go:228-273 | In every interleaving of Bind, Unbind, controller and collector, with a failure possible at each call and whatever clients do, two Binds that returned credentials for one binding id are the same Bind, or the id's secret has been collected |
| BindingRuns.DisciplinedBindsReturnOnce | pkg/crossplane/service_mariadb_database.go:228-273 | They are the same Bind even then, if clients send no Bind after an Unbind of the id and no Unbind before a Bind of the id has come to its first write |
| BindingCreators.SafetyIff | pkg/crossplane/service_mariadb_database.go:242-255 | A step keeps the protocol safe, and keeps at most one Bind per id that has created a secret, exactly unless it stores a secret for an id whose secret has been collected |
| BindingCreators.NextKeepsHeld | pkg/crossplane/service_mariadb_database.go:242-272 | Whatever clients do, the secret that a Bind created is the one stored under its id until the id's secret has been collected |
| BindingRuns.DisciplineIsNoReuse | pkg/crossplane/service_mariadb_database.go:112-166 | Such clients never make a Bind create a secret for an id whose secret has been collected, whatever the requests in flight, the controller and the collector do |
| BindingRuns.ReturnedPasswordIsStored | pkg/crossplane/service_mariadb_database.go:242-272 | Whatever clients do, the password a Bind returned is the one stored under the binding's secret name in every later state, until that secret is collected |
| BindingRuns.OneBindPerSecret | pkg/crossplane/service_mariadb_database.go:242-255 | Even with reused ids, no two Binds hold the same incarnation of a secret, and a secret keeps the password of the Bind that created it |
| BindingRuns.CompositesHaveTheirSecrets | pkg/crossplane/service_mariadb_database.go:112-166 | In every state reachable with disciplined clients, after any failures, a binding composite that is not marked has its secret; a marked one has a secret owned by its User, or an already collected one |
| BindingRuns.LiveSecretIsNotCollectable | pkg/crossplane/service_mariadb_database.go:123-166 | With disciplined clients, the garbage collector can never take the secret of a binding that is not marked for deletion |
| BindingRuns.LiveBindingCanBeUnbound | pkg/crossplane/service_mariadb_database.go:112-166 | In every state reachable with disciplined clients, after any failures, Unbind of a binding that is not marked succeeds exactly when its User has been composed; it then marks secret and composite, and otherwise changes nothing |
| BindingRuns.UnbindCanBeRerun | pkg/crossplane/service_mariadb_database.go:112-166 | An Unbind that failed between its two writes succeeds when run again at once and ends with the same objects, resource versions aside |
| BindingRuns.UnbindStaysPossible | pkg/crossplane/service_mariadb_database.go:112-166 | With disciplined clients, wherever earlier Unbinds stopped and whatever has happened since: from the moment a binding has its User an Unbind succeeds, until one has marked the composite or it is gone |
| BindingRuns.FailureLeavesAnOrphan | pkg/crossplane/service_mariadb_database.go:252-271 | In every safe state, a Bind that fails to create the composite leaves a secret that no request in flight completes or marks |
| BindingRuns.HalfwayBindIsNotRetryable | pkg/crossplane/service_mariadb_database.go:252-255 | From then on, in every continuation, the secret stays as it is, no composite appears, and no Bind that had not created the secret returns credentials |
| BindingReuse.BindStaysRefused | pkg/crossplane/service_mariadb_database.go:252-255 | From the moment a binding has its secret, in every continuation, no Bind with its id succeeds or changes anything, until the secret has been collected |
| BindingReuse.BindingLeavesNoTrace | pkg/crossplane/service_mariadb_database.go:66-166 | A Bind, its User, the Unbind and the collector together succeed and restore composites, secrets and Users exactly |
| BindingReuse.ReuseReturnsTwice | pkg/crossplane/service_mariadb_database.go:66-109 | From every system before its first request in which a Bind can succeed, a run in which no Unbind comes early leads to two Binds that returned credentials for one id |
| BindingReuse.EarlyUnbindReturnsTwice | pkg/crossplane/service_mariadb_database.go:66-109 | From every such system, so does a run in which no Bind is sent after an Unbind: the second Bind was in flight from the start |
| BindingRuns.BindAloneIsAtomic | pkg/crossplane/service_mariadb_database.go:66-109 | The Bind program, call by call and undisturbed, ends in the state and with the reply of the atomic Bind |
| BindingRuns.UnbindAloneIsAtomic | pkg/crossplane/service_mariadb_database.go:112-166 | The Unbind program, call by call and undisturbed, ends in the state and with the reply of the atomic Unbind |
| BindingSafety.NextKeepsSafe | pkg/crossplane/service_mariadb_database.go:112-166 | The protocol invariant, secrets before composites and owner before deletion mark, is kept by every step of Bind, Unbind, controller and collector, while ids are not reused |
| Bindings.NextKeepsBase | pkg/crossplane/service_mariadb_database.go:242-272 | Distinct Binds create distinct secrets that hold their passwords, and fetched secrets are honest snapshots, after every step, ids reused or not |
| Lifecycle.BindHandsOut | pkg/crossplane/service_mariadb_database.go:66-109 | A successful database Bind adds the password secret and, if missing, the user composite with its composition, its five labels and its parent, and nothing else; the credentials are the parent cluster's endpoint, the binding id, the stored password, the database, and the labelled cluster |
| Lifecycle.CreateBindingMeaning | pkg/crossplane/service_mariadb_database.go:228-273 | A binding that was created has a secret with just the password and a composite with instance and parent, an existing composite being left alone; nothing else changes |
| Lifecycle.BindIsOnce | pkg/crossplane/service_mariadb_database.go:252-255 | A Bind that wrote anything, successful or not, makes a Bind with that id that comes next fail with "already exists" and without effect |
| Lifecycle.AnyClusterCanBeTornDown | pkg/crossplane/service_mariadb.go:66-86 | From every serially reachable state, deprovisioning the databases of a MariaDB instance one by one succeeds each time, the refusals of the parent naming exactly the remaining ones, one fewer each time, and after as many steps as there were databases the parent's Deprovision succeeds |
| Lifecycle.TearDownSucceeds | pkg/brokerapi/broker.go:118-140 | The same in any order of the databases, from any state with the serial invariant |
| Lifecycle.DeprovisionStored | pkg/brokerapi/broker.go:118-140 | Deprovision of any stored instance through its plan removes exactly it, unless it is a MariaDB instance with labelled databases: then it is refused, naming them all, and nothing changes |
| Lifecycle.ProvisionStoresNew | pkg/crossplane/client.go:234-283 | A Provision stores an object with the eight labels of its composition, its id, its principal and its parent if it has one, and no others, with its composition and parameters, not ready and not connected |
| Lifecycle.DeprovisionUndoesProvision | pkg/brokerapi/broker.go:78-140 | In every serially reachable state, a Provision that creates an instance followed by its Deprovision succeeds and restores all objects exactly |
| Lifecycle.NoChildrenWaiting | pkg/crossplane/service_mariadb.go:66-86 | No database is labelled with a MariaDB instance that does not exist |
| Lifecycle.ProvisionThenGet | pkg/brokerapi/broker.go:294-311 | After a Provision, GetInstance reports the requested plan, its service id and the parameters normalised as the service demands. If the id is used under one kind and the service is configured, it does so without the plan id too, exactly if every composition of every configured service has labels that parse |
| Lifecycle.ValidatedParams | pkg/crossplane/service_redis.go:113-136 | Redis parameters keep their keys and values except that a list under `tls` becomes whether it has an element; a MariaDB instance takes none; a database keeps what it is given |
| Lifecycle.UpdateThenGet | pkg/brokerapi/broker.go:314-362 | After an Update, GetInstance reports the new plan, the service id of the request, and the parameters of the request alone, normalised as the instance's service demands, or none if it carried none |
| Lifecycle.PlainUpdateKeepsParamsIff | pkg/brokerapi/broker.go:349-357 | An Update without parameters keeps the stored parameters exactly when there were none |
| Admission.ProvisionSucceedsIff | pkg/brokerapi/broker.go:78-115 | A Provision creates an instance exactly when the id is non-empty and free under the plan's kind, the principal is known, and service and schema accept the parameters: a database only with an existing cluster as its parent, unless the request has no parameters and the schema is not enforced |
| Admission.UpdateSucceedsIff | pkg/brokerapi/broker.go:314-362 | An Update of a stored instance through its plan succeeds exactly when service id, new plan, kind, rules, and parameters fit; where the schema is enforced, a database cannot change its plan without sending parameters |
| Admission.BindSucceedsIff | pkg/brokerapi/broker.go:143-169 | A Bind of a stored instance through its plan returns credentials exactly when the instance is ready and is Redis with both ports, or a database with a password to hand out that the store admits |
| Admission.DatabaseBindSucceedsIff | pkg/crossplane/service_mariadb_database.go:66-109 | A database Bind returns credentials exactly when the binding id is a name without a secret, the parent parameter names a stored cluster with an endpoint, and the labelled cluster is stored |
| Admission.UnbindSucceedsIff | pkg/brokerapi/broker.go:172-198 | An Unbind through a stored instance succeeds exactly when the instance is ready and is Redis, or a database and composite, secret and User of the binding are there; a failure changes nothing |
| Admission.DatabaseUnbindSucceedsIff | pkg/crossplane/service_mariadb_database.go:112-166 | A database Unbind succeeds exactly when composite, secret and User are there, and a failure changes nothing |
| Admission.CreateBindingIff | pkg/crossplane/service_mariadb_database.go:228-273 | A binding is created exactly when there is a password and the id is a name without a secret |
| Admission.WriteBackIff | pkg/crossplane/client.go:286-298 | Writing a fetched object back succeeds exactly under its own kind and with parameters the schema admits |
| Admission.AcceptedParams | pkg/crossplane/service_mariadb_database.go:211-226 | Which parameters each service accepts, and what it makes of them |
| Answers.ProvisionAnswers | pkg/brokerapi/broker.go:78-115 | What a Provision answers in every case, and which error comes first: another plan, already there, in the way, the service's refusal of the parameters, no principal, a parent that is no text, the schema, or provisioned |
| Answers.ProvisionAgain | pkg/brokerapi/broker.go:90-98 | Provisioning a stored instance again through its plan answers that it is there if the request has no parameters and that it is in the way if it has; nothing changes |
| Answers.UpdateAnswers | pkg/brokerapi/broker.go:314-362 | What an Update of a stored instance through its plan answers in every case, and which error comes first |
| Answers.BindAnswers | pkg/brokerapi/broker.go:143-169 | What a Bind of a stored instance through its plan answers in every case, and which error comes first |
| Answers.DatabaseBindAnswers | pkg/crossplane/service_mariadb_database.go:66-109 | The error of a database Bind for any store: parent parameter, cluster, password, existing secret, connection, endpoint, port, labelled cluster, in this order |
| Answers.RedisBindAnswers | pkg/crossplane/service_redis.go:52-70 | The error of a Redis Bind for any store: connection, secret, endpoint, port, sentinel port, in this order |
| Answers.RedisBindHandsOut | pkg/crossplane/service_redis.go:79-98 | A Redis Bind hands out host, port and password as the connection secret has them, the instance as database and the instance's cluster, whatever the binding id, and changes nothing |
| Answers.UnbindMissingIff | pkg/brokerapi/broker.go:190-196 | An Unbind through a ready database says that the binding does not exist, and changes nothing, exactly when its composite is missing, or has a User but the secret or that User is missing |
| Answers.FoundUnbindAnswers | pkg/brokerapi/broker.go:172-198 | What an Unbind answers once it has found a ready instance, per service and in every case |
| Answers.UnfoundAnswers | pkg/brokerapi/broker.go:380-406 | A request that does not find its instance answers with the error of the search and changes nothing |
| Answers.PlannedMiss | pkg/brokerapi/broker.go:393-405 | What a lookup with the plan finds, and why it finds nothing |
| Answers.SearchAnswers | pkg/crossplane/client.go:216-230 | The search through plans answers with the first lookup that neither misses nor mismatches, be it an error |
| Answers.LastUserIff | pkg/crossplane/service_mariadb_database.go:129-137 | The User of a composite is its last reference of kind User |
| Answers.IsIntegerIff | pkg/crossplane/service_mariadb_database.go:281-284 | A port is accepted exactly if it is digits, at least one, with or without a sign |
| SerialRuns.RunKeepsInv | pkg/crossplane/service_mariadb_database.go:211-226 | Over every serial run, each database with a parent label names an existing MariaDB instance, and every instance is well formed |
| SerialRuns.ReachableInv | pkg/brokerapi/broker.go:78-140 | The same in every state reachable from a store without instances |
| SerialRuns.ApplyKeepsInv | pkg/brokerapi/broker.go:78-198 | Provision, Update, Deprovision, Bind, Unbind, the controller and the collector each keep it |
| SerialRuns.RemovalKeepsParents | pkg/crossplane/service_mariadb.go:66-86 | Removing an instance that no database is labelled with leaves no database without its parent |
| SerialRuns.RequestsChangeOneObject | pkg/brokerapi/broker.go:78-140 | For every store, catalog and request, an error from Provision, Update or Deprovision leaves the store as it was; a success adds, rewrites or removes exactly one object, and it has the request's instance id |
| SerialRuns.UpdateEffect | pkg/brokerapi/broker.go:337-359 | A successful Update rewrites the instance it found: composition, plan and SLA label are the new plan's and the parameters are the validated ones; every other label, readiness, references and connection stay; and the rules allow the change |
| SerialRuns.OtherServicesBindWithoutWriting | pkg/crossplane/service_mariadb.go:50-63 | Bind and Unbind of Redis and MariaDB-cluster instances never change the store |
| ParentParameters.BothParentLookupsAgree | pkg/crossplane/service_mariadb_database.go:66-109 | Over every serial run with an enforced schema and without re-parenting Updates, the two parent lookups of Bind read the same existing cluster |
| ParentParameters.UpdateAgreesIff | pkg/crossplane/client.go:286-298 | After a successful Update of a labelled database, with or without an enforced schema, parent label and parent parameter agree exactly when the request names the labelled parent |
| ParentParameters.ReparentingDiverges | pkg/brokerapi/broker.go:341-351 | Any database can be pointed to any other existing cluster by an Update on its own plan; its label still names the old one |
| Race.RaceBreaksParents | pkg/brokerapi/broker.go:118-140 | From every state with an unused cluster, a Provision and a Deprovision can interleave so that both succeed and a database is left without parent |
| Overlap.NextKeepsParentsIff | pkg/brokerapi/broker.go:78-140 | In every interleaving, a step leaves a database without its parent exactly if it takes effect as the creation of a database whose labelled cluster is not stored or as the deletion of a cluster that databases are labelled with |
| Overlap.ParentsExistWithoutOverlap | pkg/crossplane/service_mariadb_database.go:211-226 | In every interleaving in which no Deprovision of a cluster is in flight together with the creation of a database on it, each labelled database has its parent, although checks and writes are separate calls |
| Together.RunsProject | pkg/brokerapi/broker.go:78-198 | Every interleaving of all five requests with controllers and collector is, seen by instances and seen by bindings, a run of their own system |
| Together.BindingsAreBindingChanges | pkg/crossplane/service_mariadb_database.go:66-166 | No step of Bind, Unbind, their controller or the collector touches an instance |
| Together.InstancesAreOutside | pkg/brokerapi/broker.go:78-140 | No step of Provision, Update, Deprovision or their controller touches a user composite, beyond its status, or a binding secret |
| Together.WholeIsSafe | pkg/brokerapi/broker.go:78-198 | In every interleaving of everything, instances stay well formed and live along the rules, and bindings stay safe |
| Interleaving.AloneProvisionIsAtomic | pkg/brokerapi/broker.go:78-115 | The Provision program, call by call and undisturbed, is the atomic Provision |
| Interleaving.AloneUpdateIsAtomic | pkg/brokerapi/broker.go:314-362 | The Update program, call by call and undisturbed, is the atomic Update |
| Interleaving.AloneDeprovisionIsAtomic | pkg/brokerapi/broker.go:118-140 | The Deprovision program, call by call and undisturbed, is the atomic Deprovision |
| Instances.PlanlessFindsThePlan | pkg/crossplane/client.go:211-231 | If the id exists under one kind and its plan belongs to a configured service, then for every listing order the planless search finds what the lookup with the right plan finds, namely the instance and the plan it is on, if and only if every composition of every configured service has labels that parse |
| Instances.PlanlessMissIff | pkg/crossplane/client.go:216-230 | The planless search succeeds exactly when services are configured, all their plans parse, and one matches a stored object; it reports not-found exactly when they all parse and none matches |
| Instances.PlanlessFindsTheFirst | pkg/crossplane/client.go:211-231 | If the id is used under several kinds, the search finds a matching plan before which no other matching plan comes by name |
| Instances.FindInIff | pkg/crossplane/client.go:216-230 | The search through a list of plans succeeds exactly when one of them matches, and then returns a matching one |
| Instances.LookupIff | pkg/crossplane/client.go:176-206 | A lookup by id and plan answers nothing, the object, or a mismatch, exactly when no object, a parsable object with that plan name, or a parsable one with another is stored under the plan's kind |
| Instances.FindMeaning | pkg/brokerapi/broker.go:380-406 | With and without the plan, what a request has found is stored under a plan of the catalog whose lookup gives it |
| Instances.FreshInstanceOk | pkg/crossplane/client.go:234-257 | The composite written for a new instance is well formed: of its composition's kind, with that composition's labels and its own id |
| Instances.InstanceParses | pkg/crossplane/metadata.go:73-109 | Every well-formed instance re-parses to the service name, service id, plan name, size and SLA of the plan it is on |
| Instances.LabelsRoundTrip | pkg/crossplane/client.go:259-283 | The labels written for a new instance parse back to the plan's service, service id, plan name, size and SLA, to the instance id and to the parent given in the parameters |
| Instances.KindMatchesService | pkg/crossplane/services.go:69-79 | The kind of a stored instance and its service name label always name the same service |
| Instances.MatchingPlanIsStored | pkg/crossplane/client.go:176-206 | A plan with the kind and the plan name of an instance is the plan the instance is on |
| Instances.RetargetOk | pkg/brokerapi/broker.go:337-347 | Refreshing the composition and two labels, for a plan the rules accept, leaves a well-formed instance on the new plan |
| Instances.RetargetFrame | pkg/brokerapi/broker.go:337-347 | The rewritten object has the new composition, the two refreshed labels and the given parameters, and everything else of the old one |
| Instances.PreparedLabelsAreNew | pkg/crossplane/client.go:259-283 | The labels of a new instance are exactly the eight of its composition, its id, its principal, and its parent if it names one |
| PlanPolicy.ParsePlanUpdateRules | pkg/crossplane/plan.go:69-83 | The parsing loop returns all rules in order, or the error of the first bad segment |
| PlanPolicy.ParseAfterPrint | pkg/crossplane/plan.go:69-83 | Parsing the printed form of any list of rules with separator-free names gives the list back |
| PlanPolicy.PrintAfterParse | pkg/crossplane/plan.go:69-83 | Printing the rules parsed from any accepted text gives the text back |
| PlanPolicy.AcceptedIff | pkg/crossplane/plan.go:69-83 | A text is accepted exactly when it is empty or each segment between bars has exactly one `>` |
| PlanPolicy.RuleAllowsIffSegment | pkg/crossplane/plan.go:96-98 | A parsed rule list has a rule from a to b exactly when the text `a>b` is one of the segments, whatever their order and number |
| PlanPolicy.PolicyFromText | pkg/crossplane/plan.go:53-67 | Which updates two accepted rule texts permit, said in terms of their segments alone |
| PlanPolicy.AnyRuleAllows | pkg/crossplane/plan.go:121-136 | The early-exit loop answers whether the change is among the rules |
| PlanPolicy.CheckUpdate | pkg/crossplane/plan.go:101-119 | The update check with its two loops decides the update relation |
| PlanPolicy.AllowedUpdateFollowsRules | pkg/crossplane/plan.go:101-119 | An allowed update stays in the service, follows the rules of what it changes, and changes at most one of size and SLA |
| PlanPolicy.SameSizeDecidedBySla | pkg/crossplane/metadata.go:118-121 | Between `s-x` and `s-y` of one service the SLA rules alone decide if both names give the size back; if only one does, the update is refused; in general it is allowed exactly when the sizes read back are the same and the SLA rules allow it |
| PlanPolicy.SizeChangeDecidedBySizeRules | pkg/crossplane/metadata.go:118-121 | Between `s-x` and `l-y` of one service, if both names give their sizes back, an update is allowed exactly when the SLAs are equal and the size rules have s to l; in general the rules apply to the sizes read back |
| Metadata.PlanSizeRecovered | pkg/crossplane/metadata.go:118-121 | For every size and every SLA, the size is recovered from `{size}-{sla}` exactly when the part of it from the first `-{sla}` of the name on commutes with `-{sla}`; for a suffix that does not overlap itself, when that part only repeats it, in particular if the size has none |
| Metadata.PlanSizeUnchangedIff | pkg/crossplane/metadata.go:118-121 | A plan name is its own size exactly when it does not contain `-{sla}` |
| Metadata.OverlappingSuffixLosesSize | pkg/crossplane/metadata.go:118-121 | An SLA with an overlapping suffix and a size without it that is not recovered |
| Metadata.DashFreeSuffixUnbordered | pkg/crossplane/metadata.go:118-121 | The suffix of an SLA without a dash is unbordered |
| Metadata.ServiceNamesAreUnambiguous | pkg/crossplane/services.go:36-49 | Service names and services determine each other |
| Metadata.ParseLabelsMeaning | pkg/crossplane/metadata.go:73-109 | Labels parse exactly when the service name is a defined one and the three flags are empty, true or false texts; each field is the text of its own label |
| Metadata.FlagMeaning | pkg/crossplane/metadata.go:111-116 | Which texts are true, which are false, and that a missing one is the default |
| ServiceIds.GetServiceIds | pkg/config/config.go:209-221 | The parsing loop computes the list of ids or fails |
| ServiceIds.ServiceIdsRoundTrip | pkg/config/config.go:209-221 | A parsed list is non-empty, its ids are trimmed, non-empty and comma-free, and joining and parsing it again gives it back; parsing fails only if every segment is blank |
| ServiceIds.IdsPreserveOrder | pkg/config/config.go:211-216 | The ids are the trimmed texts of exactly the segments that are not blank, in their order |
| Strings.IsSpaceIff | pkg/config/config.go:212 | Which characters are trimmed |
| Catalog.PlansMeaning | pkg/crossplane/client.go:128-155 | Listing plans succeeds exactly when some service is configured and every selected composition has valid labels; it yields exactly the selected plans |
| Catalog.SortSorts | pkg/crossplane/client.go:141-143 | Plans come out ordered by name, none lost or duplicated |
| Catalog.SortedIsFixed | pkg/crossplane/client.go:141-143 | Every ordering an unstable sort may give is the sorted form of some listing |
| Catalog.LexLessIff | pkg/crossplane/client.go:142 | The order used is the lexicographic order of the names |
| Catalog.GroupVersionRoundTrip | pkg/crossplane/plan.go:38-44 | An API version written as group, slash and version is read as that group and version |
| Catalog.GroupVersionIff | pkg/crossplane/plan.go:38-44 | An API version is refused exactly if it has more than one slash, and without one it is a version alone |
| Broker.Crossplane.ListPlans | pkg/crossplane/client.go:128-155 | The loop that wraps compositions as plans stops at the first invalid one and otherwise yields all of them in sorted order |
| Broker.Crossplane.FindInstanceWithoutPlan | pkg/crossplane/client.go:211-231 | The search loop finds what the recursive search specifies |
| Broker.Crossplane.PrepareLabels | pkg/crossplane/client.go:259-283 | The label loop copies the eight plan labels, whatever its order, and adds instance, principal and parent |
| Broker.Crossplane.CheckDeprovisionable | pkg/crossplane/service_mariadb.go:66-86 | Refuses exactly for a MariaDB instance with labelled databases, and the collected names are all of them |
| Broker.Crossplane.MarkCredentialsForDeletion | pkg/crossplane/service_mariadb_database.go:123-166 | The last User reference becomes the owner of the secret, or an error without effect |
| Broker.ServiceBroker.Provision | pkg/brokerapi/broker.go:78-115 | Answers as listed for every case, in particular of an instance that is there; adds one object of the id, which is a new instance of the plan, or changes nothing; succeeds exactly when id, principal and parameters fit the plan's service; keeps every parent and every instance well formed; and does what the Provision of runs does |
| Broker.ServiceBroker.Relabel | pkg/brokerapi/broker.go:337-347 | The loop over the two labels refreshes both and the composition, and leaves all other labels, the parameters, readiness, references and connection |
| Broker.ServiceBroker.Deprovision | pkg/brokerapi/broker.go:118-140 | Removes one object of the id or changes nothing, keeps every parent and every instance well formed, and does what the Deprovision of runs does |
| Broker.ServiceBroker.Update | pkg/brokerapi/broker.go:314-362 | Rewrites one object of the id or changes nothing; on success the instance has moved to the new plan along the rules and kept its identity, all other labels, readiness, references and connection; keeps every parent; and does what the Update of runs does |
| Broker.ServiceBroker.GetInstance | pkg/brokerapi/broker.go:294-311 | Reports the parameters of a stored object of the id and a plan of the catalog with its kind and plan name, and that plan's service id |
| Broker.ServiceBroker.Bind | pkg/brokerapi/broker.go:143-169 | Leaves all instances alone; credentials are what the store holds for the instance and the binding: for Redis its connection secret, for a database the cluster's endpoint, the stored password and the labelled cluster; a password it wrote was not there before; and does what the Bind of runs does |
| Broker.ServiceBroker.Unbind | pkg/brokerapi/broker.go:172-198 | Leaves all instances alone; changes nothing on failure; for a database, answers that the binding does not exist if composite, secret or User is missing, in the order they are read; otherwise, if it changed anything, the secret belongs to the composite's User and the composite is marked; and does what the Unbind of runs does |

## Left out

- GetBinding, LastBindingOperation, LastOperation and the service catalog response: reads whose answer is settled by one body.
- HTTP routing, authentication, logging, metrics and configuration other than the service ids: I/O and library calls.
- JSON decoding: parameters arrive decoded. The JSON text `null`, which the source decodes to no map, counts as an empty object.
- Labels of the password secret and the namespace it lives in: nothing reads them.
- Credential URIs, the Redis master and sentinel entries, and metrics endpoints: string templates. Ports are kept as text; a number too large for the platform's integers is not rejected.
- The API server's checks of label values, for instance of a service id used in a selector.
- Aliasing: Update edits the fetched composite in place before writing it; the model edits a local value.
- Deletion of instances is immediate: their deferred deletion by finalizers is not modelled. Nor are labels and annotations that the controller adds.
- A secret written by others under the very name of a binding's password: connection secrets outside bindings have names of their own.
- Read failures other than "not found" in the atomic requests; in the small-step programs every call may fail.
- Store.Create: rejects only an empty name, an existing one and a missing parent reference; the API server has further schema rules.
- Lifecycle.AnyClusterCanBeTornDown: about Deprovisions one after another, from the states that serial runs reach; `TearDownSucceeds` starts from any state with the serial invariant.
