/** The catalog: compositions deployed on the cluster, wrapped as plans. It is fixed during a run. */
module Catalog {
  import opened Types
  import opened Strings
  import opened Metadata
  import opened Store

  datatype Composition = Composition(labels: LabelMap, apiVersion: string, kind: Kind)

  datatype Catalog = Catalog(compositions: map<string, Composition>, serviceIds: seq<string>)

  datatype Plan = Plan(name: string, composition: Composition, labels: Labels)

  // ---------------------------------------------------------------- Plans

  function NewPlan(name: string, c: Composition): Result<Plan>
  {
    var labels :- ParseLabels(c.labels);
    Ok(Plan(name, c, labels))
  }

  /** The plan id is the composition's name. */
  function GetPlan(cat: Catalog, planId: string): Result<Plan>
  {
    if planId in cat.compositions then NewPlan(planId, cat.compositions[planId]) else Err(NotFound)
  }

  /** `schema.ParseGroupVersion`. */
  function ParseGroupVersion(text: string): Result<(string, string)>
  {
    if text == "" || text == "/" then Ok(("", ""))
    else
      var parts := Split(text, '/');
      if |parts| == 1 then Ok(("", parts[0]))
      else if |parts| == 2 then Ok((parts[0], parts[1]))
      else Err(InvalidGroupVersion(text))
  }

  /** The text `{group}/{version}` is read as the group and the version. */
  lemma GroupVersionRoundTrip(group: string, version: string)
    requires '/' !in group && '/' !in version
    ensures ParseGroupVersion(group + "/" + version) == Ok((group, version))
  {
    SplitPeel(group, version, '/');
    SplitWhole(version, '/');
    if group + "/" + version == "/" {
      assert |group| + 1 + |version| == 1;
      assert group == "" && version == "";
    }
  }

  /** An API version is refused exactly if it has more than one slash; without one it is a version. */
  lemma GroupVersionIff(text: string)
    ensures ParseGroupVersion(text).Ok? <==> Count(text, '/') <= 1
    ensures '/' !in text ==> ParseGroupVersion(text) == Ok(("", text))
    ensures ParseGroupVersion(text).Err? ==> ParseGroupVersion(text) == Err(InvalidGroupVersion(text))
  {
    SplitCounts(text, '/');
    if text == "/" {
      assert Count("/", '/') == 1;
    }
    if '/' !in text {
      SplitWhole(text, '/');
    }
  }

  function PlanGvk(plan: Plan): Result<Gvk>
  {
    var gv :- ParseGroupVersion(plan.composition.apiVersion);
    Ok(Gvk(gv.0, gv.1, plan.composition.kind))
  }

  /** Assumptions on the deployed catalog: compositions have names, a composition of a service builds
      that service's composite type, and the type and the plan name identify one composition. */
  ghost predicate WellFormed(cat: Catalog)
  {
    && "" !in cat.compositions
    && (forall n :: n in cat.compositions && GetPlan(cat, n).Ok? ==> PlanBuildsService(GetPlan(cat, n).value))
    && (forall m, n | m in cat.compositions && n in cat.compositions && GetPlan(cat, m).Ok? && GetPlan(cat, n).Ok? ::
          SamePlan(GetPlan(cat, m).value, GetPlan(cat, n).value) ==> m == n)
  }

  ghost predicate PlanBuildsService(plan: Plan)
  {
    && ServiceOf(plan.labels.serviceName).Some?
    && PlanGvk(plan) == Ok(ServiceGvk(ServiceOf(plan.labels.serviceName).value))
  }

  predicate SamePlan(p: Plan, q: Plan)
  {
    PlanGvk(p) == PlanGvk(q) && p.labels.planName == q.labels.planName
  }

  // ---------------------------------------------------------------- Listing and sorting

  /** Go's `<` on strings. */
  predicate LexLess(a: string, b: string)
  {
    if b == "" then false
    else if a == "" then true
    else if a[0] != b[0] then a[0] < b[0]
    else LexLess(a[1..], b[1..])
  }

  /** The texts agree up to some position, where the first one ends or has the smaller character. */
  ghost predicate DiffersAt(a: string, b: string, k: nat)
  {
    k <= |a| && k < |b| && a[..k] == b[..k] && (k < |a| ==> a[k] < b[k])
  }

  lemma SamePrefixSameHead(a: string, b: string)
    ensures forall k: nat :: 0 < k <= |a| && k <= |b| && a[..k] == b[..k] ==> a[0] == b[0]
  {
    forall k: nat | 0 < k <= |a| && k <= |b| && a[..k] == b[..k] ensures a[0] == b[0] {
      assert a[..k][0] == a[0] && b[..k][0] == b[0];
    }
  }

  /** `LexLess` is the lexicographic order. */
  lemma {:induction false} LexLessIff(a: string, b: string)
    ensures LexLess(a, b) <==> exists k: nat :: DiffersAt(a, b, k)
  {
    if a == "" || b == "" || a[0] != b[0] {
      assert LexLess(a, b) ==> DiffersAt(a, b, 0);
      SamePrefixSameHead(a, b);
    } else {
      LexLessIff(a[1..], b[1..]);
      if LexLess(a, b) {
        var k: nat :| DiffersAt(a[1..], b[1..], k);
        assert a[..k + 1] == [a[0]] + a[1..][..k] && b[..k + 1] == [b[0]] + b[1..][..k];
        assert DiffersAt(a, b, k + 1);
      }
      forall k: nat | DiffersAt(a, b, k) ensures LexLess(a, b) {
        assert a[1..][..k - 1] == a[..k][1..] && b[1..][..k - 1] == b[..k][1..];
        assert DiffersAt(a[1..], b[1..], k - 1);
      }
    }
  }

  lemma {:induction false} LexLeqTransitive(a: string, b: string, c: string)
    requires !LexLess(b, a) && !LexLess(c, b)
    ensures !LexLess(c, a)
  {
    if a != "" && b != "" && c != "" && a[0] == b[0] == c[0] {
      LexLeqTransitive(a[1..], b[1..], c[1..]);
    }
  }

  lemma {:induction false} LexLessAsymmetric(a: string, b: string)
    requires LexLess(a, b)
    ensures !LexLess(b, a)
  {
    if a != "" && a[0] == b[0] {
      LexLessAsymmetric(a[1..], b[1..]);
    }
  }

  function PlanNameOf(cat: Catalog, name: string): string
  {
    if name in cat.compositions then Text(cat.compositions[name].labels, PlanNameLabel) else ""
  }

  ghost predicate SortedByPlanName(cat: Catalog, names: seq<string>)
  {
    forall i, j :: 0 <= i < j < |names| ==> !LexLess(PlanNameOf(cat, names[j]), PlanNameOf(cat, names[i]))
  }

  function Insert(cat: Catalog, name: string, names: seq<string>): seq<string>
  {
    if names == [] then [name]
    else if LexLess(PlanNameOf(cat, names[0]), PlanNameOf(cat, name)) then [names[0]] + Insert(cat, name, names[1..])
    else [name] + names
  }

  function SortByPlanName(cat: Catalog, names: seq<string>): seq<string>
  {
    if names == [] then [] else Insert(cat, names[0], SortByPlanName(cat, names[1..]))
  }

  lemma {:induction false} InsertPermutes(cat: Catalog, name: string, names: seq<string>)
    ensures multiset(Insert(cat, name, names)) == multiset([name]) + multiset(names)
  {
    if names != [] {
      assert names == [names[0]] + names[1..];
      if LexLess(PlanNameOf(cat, names[0]), PlanNameOf(cat, name)) {
        InsertPermutes(cat, name, names[1..]);
      }
    }
  }

  /** No plan name in the list comes before that of `first`. */
  ghost predicate NoneBefore(cat: Catalog, first: string, names: seq<string>)
  {
    forall x :: x in names ==> !LexLess(PlanNameOf(cat, x), PlanNameOf(cat, first))
  }

  lemma SortedCons(cat: Catalog, first: string, names: seq<string>)
    requires SortedByPlanName(cat, names) && NoneBefore(cat, first, names)
    ensures SortedByPlanName(cat, [first] + names)
  {
    forall i, j | 0 <= i < j < |[first] + names|
      ensures !LexLess(PlanNameOf(cat, ([first] + names)[j]), PlanNameOf(cat, ([first] + names)[i]))
    {
      assert ([first] + names)[j] == names[j - 1];
      if i > 0 {
        assert ([first] + names)[i] == names[i - 1];
      }
    }
  }

  lemma {:induction false} InsertSorts(cat: Catalog, name: string, names: seq<string>)
    requires SortedByPlanName(cat, names)
    ensures SortedByPlanName(cat, Insert(cat, name, names))
  {
    if names != [] {
      if LexLess(PlanNameOf(cat, names[0]), PlanNameOf(cat, name)) {
        InsertSorts(cat, name, names[1..]);
        InsertPermutes(cat, name, names[1..]);
        LexLessAsymmetric(PlanNameOf(cat, names[0]), PlanNameOf(cat, name));
        forall x | x in Insert(cat, name, names[1..])
          ensures !LexLess(PlanNameOf(cat, x), PlanNameOf(cat, names[0]))
        {
          assert x in multiset(Insert(cat, name, names[1..]));
          assert x == name || x in names[1..];
        }
        SortedCons(cat, names[0], Insert(cat, name, names[1..]));
      } else {
        forall x | x in names ensures !LexLess(PlanNameOf(cat, x), PlanNameOf(cat, name)) {
          var j :| 0 <= j < |names| && names[j] == x;
          if j > 0 {
            LexLeqTransitive(PlanNameOf(cat, name), PlanNameOf(cat, names[0]), PlanNameOf(cat, x));
          }
        }
        SortedCons(cat, name, names);
      }
    }
  }

  /** The plans come out ordered by plan name, and none is lost or duplicated. */
  lemma {:induction false} SortSorts(cat: Catalog, names: seq<string>)
    ensures SortedByPlanName(cat, SortByPlanName(cat, names))
    ensures multiset(SortByPlanName(cat, names)) == multiset(names)
  {
    if names == [] {
    } else {
      SortSorts(cat, names[1..]);
      InsertSorts(cat, names[0], SortByPlanName(cat, names[1..]));
      InsertPermutes(cat, names[0], SortByPlanName(cat, names[1..]));
      assert names == [names[0]] + names[1..];
    }
  }

  /** Every ordering that an unstable sort may produce is the sorted form of some listing: itself. What
      is proved for all listings is therefore proved for all outcomes of the unstable sort. */
  lemma {:induction false} SortedIsFixed(cat: Catalog, names: seq<string>)
    requires SortedByPlanName(cat, names)
    ensures SortByPlanName(cat, names) == names
  {
    if names == [] {
    } else {
      SortedIsFixed(cat, names[1..]);
      assert names == [names[0]] + names[1..];
    }
  }

  /** The composition carries the id of one of the configured services. */
  predicate Selected(cat: Catalog, name: string)
  {
    && name in cat.compositions
    && ServiceIdLabel in cat.compositions[name].labels
    && cat.compositions[name].labels[ServiceIdLabel] in cat.serviceIds
  }

  /** What the API server may answer to a list call: the selected compositions in some order. */
  ghost predicate Listing(cat: Catalog, names: seq<string>)
  {
    forall n :: n in names <==> Selected(cat, n)
  }

  /** Every composition of a configured service has labels that parse. */
  ghost predicate AllPlansParse(cat: Catalog)
  {
    forall n :: Selected(cat, n) ==> GetPlan(cat, n).Ok?
  }

  function NewPlans(cat: Catalog, names: seq<string>): Result<seq<Plan>>
  {
    if names == [] then Ok([])
    else
      var plan :- GetPlan(cat, names[0]);
      var rest :- NewPlans(cat, names[1..]);
      Ok([plan] + rest)
  }

  /** All plans of the configured services, from what the API server listed. */
  function Plans(cat: Catalog, listed: seq<string>): Result<seq<Plan>>
  {
    if cat.serviceIds == [] then Err(NoServiceIds)
    else NewPlans(cat, SortByPlanName(cat, listed))
  }

  lemma {:induction false} NewPlansMeaning(cat: Catalog, names: seq<string>)
    requires NewPlans(cat, names).Ok?
    ensures |NewPlans(cat, names).value| == |names|
    ensures forall i :: 0 <= i < |names| ==> GetPlan(cat, names[i]) == Ok(NewPlans(cat, names).value[i])
  {
    if names == [] {
    } else {
      NewPlansMeaning(cat, names[1..]);
      forall i | 0 <= i < |names| ensures GetPlan(cat, names[i]) == Ok(NewPlans(cat, names).value[i]) {
        if i > 0 { assert names[i] == names[1..][i - 1]; }
      }
    }
  }

  lemma {:induction false} NewPlansSucceeds(cat: Catalog, names: seq<string>)
    requires forall n :: n in names ==> GetPlan(cat, n).Ok?
    ensures NewPlans(cat, names).Ok?
  {
    if names == [] {
    } else {
      NewPlansSucceeds(cat, names[1..]);
    }
  }

  /** Listing succeeds exactly when some service is configured and every selected composition has valid
      labels; it then yields exactly the selected plans. */
  lemma PlansMeaning(cat: Catalog, listed: seq<string>)
    requires Listing(cat, listed)
    ensures Plans(cat, listed).Ok? <==> cat.serviceIds != [] && AllPlansParse(cat)
    ensures Plans(cat, listed).Ok? ==>
              forall p :: p in Plans(cat, listed).value <==> Selected(cat, p.name) && GetPlan(cat, p.name) == Ok(p)
  {
    var names := SortByPlanName(cat, listed);
    SortSorts(cat, listed);
    forall n ensures n in names <==> n in listed {
      assert n in multiset(names) <==> n in multiset(listed);
    }
    if NewPlans(cat, names).Ok? {
      NewPlansMeaning(cat, names);
      var plans := NewPlans(cat, names).value;
      forall n | Selected(cat, n) ensures GetPlan(cat, n).Ok? {
        var i :| 0 <= i < |names| && names[i] == n;
      }
      forall p ensures p in plans <==> Selected(cat, p.name) && GetPlan(cat, p.name) == Ok(p) {
        if p in plans {
          var i :| 0 <= i < |plans| && plans[i] == p;
          assert names[i] in names;
        }
        if Selected(cat, p.name) && GetPlan(cat, p.name) == Ok(p) {
          var i :| 0 <= i < |names| && names[i] == p.name;
          assert plans[i] == p;
        }
      }
    } else if cat.serviceIds != [] && AllPlansParse(cat) {
      NewPlansSucceeds(cat, names);
    }
  }

  /** A failure to list the plans is never taken for a plan that does not match. */
  lemma {:induction false} NewPlansErrors(cat: Catalog, names: seq<string>)
    ensures NewPlans(cat, names) != Err(PlanMismatch)
  {
    if names != [] {
      NewPlansErrors(cat, names[1..]);
    }
  }
}
