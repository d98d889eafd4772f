/** Labels on Kubernetes objects and what the broker reads out of them. */
module Metadata {
  import opened Types
  import opened Strings

  /** The label keys the broker names; every other key is an `OtherLabel`. */
  datatype LabelKey =
    | ServiceNameLabel
    | ServiceIdLabel
    | PlanNameLabel
    | ClusterLabel
    | SlaLabel
    | InstanceIdLabel
    | ParentIdLabel
    | BindableLabel
    | UpdatableLabel
    | DeletedLabel
    | PrincipalLabel
    | OwnerApiVersionLabel
    | OwnerGroupLabel
    | OwnerKindLabel
    | OtherLabel(key: string)

  type LabelMap = map<LabelKey, string>

  /** Reading a Go map: a missing key reads as the empty string. */
  function Text(labels: LabelMap, key: LabelKey): string
  {
    if key in labels then labels[key] else ""
  }

  // ---------------------------------------------------------------- Services

  datatype Service = Redis | MariaDB | MariaDBDatabase

  /** The service behind a service name, if the name is one of the defined ones. */
  function ServiceOf(name: string): Option<Service>
  {
    if name == "redis-k8s" then Some(Redis)
    else if name == "mariadb-k8s" then Some(MariaDB)
    else if name == "mariadb-k8s-database" then Some(MariaDBDatabase)
    else None
  }

  /** The name a service is registered under. */
  function NameOf(service: Service): string
  {
    match service
    case Redis => "redis-k8s"
    case MariaDB => "mariadb-k8s"
    case MariaDBDatabase => "mariadb-k8s-database"
  }

  /** Names and services determine each other, so dispatching on the name is unambiguous. */
  lemma ServiceNamesAreUnambiguous(name: string, service: Service)
    ensures ServiceOf(name) == Some(service) <==> name == NameOf(service)
  {
    assert |NameOf(Redis)| == 9 && |NameOf(MariaDB)| == 11 && |NameOf(MariaDBDatabase)| == 20;
  }

  // ---------------------------------------------------------------- Parsed labels

  datatype Labels = Labels(
    serviceName: string,
    serviceId: string,
    planName: string,
    planSize: string,
    instanceId: string,
    parentId: string,
    sla: string,
    bindable: bool,
    updatable: bool,
    deleted: bool,
    ownerApiVersion: string,
    ownerGroup: string,
    ownerKind: string
  )

  /** `strconv.ParseBool`. */
  function ParseBool(s: string): Result<bool>
  {
    if s in ["1", "t", "T", "true", "TRUE", "True"] then Ok(true)
    else if s in ["0", "f", "F", "false", "FALSE", "False"] then Ok(false)
    else Err(InvalidBool(s))
  }

  function ParseBoolLabel(s: string, default: bool): Result<bool>
  {
    if s == "" then Ok(default) else ParseBool(s)
  }

  /** The texts that stand for true. */
  predicate SaysTrue(s: string)
  {
    s == "1" || s == "t" || s == "T" || s == "true" || s == "TRUE" || s == "True"
  }

  /** The texts that stand for false. */
  predicate SaysFalse(s: string)
  {
    s == "0" || s == "f" || s == "F" || s == "false" || s == "FALSE" || s == "False"
  }

  /** What a flag reads as: its default if it is not set, and an error if it is neither true nor false. */
  lemma FlagMeaning(s: string, default: bool)
    ensures !(SaysTrue(s) && SaysFalse(s))
    ensures ParseBoolLabel(s, default)
         == if s == "" then Ok(default)
            else if SaysTrue(s) then Ok(true)
            else if SaysFalse(s) then Ok(false)
            else Err(InvalidBool(s))
  {
    assert SaysTrue(s) ==> s[0] in "1tT";
    assert SaysFalse(s) ==> s[0] in "0fF";
  }

  function Suffix(sla: string): string
  {
    "-" + sla
  }

  /** Removes the first `-{sla}` from a plan name. */
  function PlanSize(name: string, sla: string): string
  {
    RemoveFirst(name, Suffix(sla))
  }

  function ParseLabels(l: LabelMap): Result<Labels>
  {
    var name := Text(l, PlanNameLabel);
    var sla := Text(l, SlaLabel);
    var service := Text(l, ServiceNameLabel);
    if ServiceOf(service).None? then Err(InvalidService(service))
    else
      var bindable :- ParseBoolLabel(Text(l, BindableLabel), true);
      var updatable :- ParseBoolLabel(Text(l, UpdatableLabel), false);
      var deleted :- ParseBoolLabel(Text(l, DeletedLabel), false);
      Ok(Labels(service, Text(l, ServiceIdLabel), name, PlanSize(name, sla), Text(l, InstanceIdLabel),
                Text(l, ParentIdLabel), sla, bindable, updatable, deleted,
                Text(l, OwnerApiVersionLabel), Text(l, OwnerGroupLabel), Text(l, OwnerKindLabel)))
  }

  /** The text of a flag. */
  predicate IsFlag(s: string)
  {
    s == "" || SaysTrue(s) || SaysFalse(s)
  }

  /** Labels parse exactly when the service name is a defined one and the three flags read as flags. Every field
      is then the text of its own label; an instance is bindable unless it says otherwise. */
  lemma ParseLabelsMeaning(l: LabelMap)
    ensures ParseLabels(l).Ok?
            <==> && ServiceOf(Text(l, ServiceNameLabel)).Some?
                 && IsFlag(Text(l, BindableLabel)) && IsFlag(Text(l, UpdatableLabel)) && IsFlag(Text(l, DeletedLabel))
    ensures ParseLabels(l).Ok? ==>
              var p := ParseLabels(l).value;
              && p.serviceName == Text(l, ServiceNameLabel) && p.serviceId == Text(l, ServiceIdLabel)
              && p.planName == Text(l, PlanNameLabel) && p.sla == Text(l, SlaLabel)
              && p.planSize == PlanSize(Text(l, PlanNameLabel), Text(l, SlaLabel))
              && p.instanceId == Text(l, InstanceIdLabel) && p.parentId == Text(l, ParentIdLabel)
              && p.bindable == !SaysFalse(Text(l, BindableLabel)) && p.updatable == SaysTrue(Text(l, UpdatableLabel))
              && p.deleted == SaysTrue(Text(l, DeletedLabel))
              && p.ownerApiVersion == Text(l, OwnerApiVersionLabel) && p.ownerGroup == Text(l, OwnerGroupLabel)
              && p.ownerKind == Text(l, OwnerKindLabel)
    ensures ServiceOf(Text(l, ServiceNameLabel)).None? ==>
              ParseLabels(l) == Err(InvalidService(Text(l, ServiceNameLabel)))
  {
    FlagMeaning(Text(l, BindableLabel), true);
    FlagMeaning(Text(l, UpdatableLabel), false);
    FlagMeaning(Text(l, DeletedLabel), false);
  }

  // ---------------------------------------------------------------- Plan sizes

  lemma DashFreeSuffixUnbordered(sla: string)
    requires '-' !in sla
    ensures Unbordered(Suffix(sla))
  {
    assert Suffix(sla)[1..] == sla;
    UniqueHeadUnbordered(Suffix(sla));
  }

  /** The part of the size from the first `-{sla}` of the plan name on commutes with `-{sla}`. */
  predicate KeepsSize(size: string, sla: string)
  {
    var w := Suffix(sla);
    match FirstIndex(size + w, w)
    case None => false
    case Some(i) => i <= |size| && size[i..] + w == w + size[i..]
  }

  /** For every size and every SLA, the size is recovered from the plan name `{size}-{sla}` exactly when the
      part of the size from the first `-{sla}` of the plan name on commutes with `-{sla}`. If the suffix does
      not overlap itself, this says that the size, from its first `-{sla}` on, consists of nothing but
      repetitions of it; in particular it holds whenever the size contains none. */
  lemma PlanSizeRecovered(size: string, sla: string)
    ensures PlanSize(size + Suffix(sla), sla) == size <==> KeepsSize(size, sla)
    ensures Unbordered(Suffix(sla)) ==>
              (KeepsSize(size, sla) <==> match FirstIndex(size, Suffix(sla))
                                         case None => true
                                         case Some(i) => Repeats(size[i..], Suffix(sla)))
    ensures Unbordered(Suffix(sla)) && !Occurs(size, Suffix(sla)) ==> KeepsSize(size, sla)
  {
    var i := RemoveFirstRestores(size, Suffix(sla));
    if Unbordered(Suffix(sla)) {
      RemoveFirstRestoresUnbordered(size, Suffix(sla));
    }
  }

  /** A plan name is its own size exactly when it does not contain the SLA suffix. */
  lemma PlanSizeUnchangedIff(name: string, sla: string)
    ensures PlanSize(name, sla) == name <==> !Occurs(name, Suffix(sla))
  {
    match FirstIndex(name, Suffix(sla))
    case None =>
    case Some(i) => assert |PlanSize(name, sla)| < |name|;
  }

  /** That the suffix does not occur in the size is not enough: `-a-` does not occur in `x-a`, yet the size
      read back from the plan name `x-a-a-` is `xa-`. */
  lemma OverlappingSuffixLosesSize()
    ensures !Occurs("x-a", Suffix("a-")) && !KeepsSize("x-a", "a-")
    ensures PlanSize("x-a" + Suffix("a-"), "a-") == "xa-"
  {
    var name, w := "x-a-a-", "-a-";
    assert Suffix("a-") == w && "x-a" + w == name;
    assert name[0..3][0] == 'x' && name[1..4] == w;
    assert OccursAt(name, w, 1) && !OccursAt(name, w, 0);
    assert name[..1] + name[1 + |w|..] == "xa-";
    assert "x-a"[0..3][0] == 'x';
    PlanSizeRecovered("x-a", "a-");
  }
}
