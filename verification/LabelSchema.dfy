/** The two dcgm-exporter label schemas and their normalisation into one record
    (internal/collector/gpu/parser.go, parseLabels). */
module LabelSchema {
  import opened Prelude

  datatype Label = Label(key: string, value: string)

  /** The workload attributes that exist in a new-style and an old-style spelling. */
  datatype Slot = PodSlot | NamespaceSlot | ContainerSlot

  datatype Kind =
    | Gpu | Uuid | Device | ModelName | DriverVersion | Hostname
    | New(slot: Slot) | Old(slot: Slot)
    | InstanceId | Profile | Other

  datatype DcgmLabels = DcgmLabels(
    gpu: string, uuid: string, device: string, modelName: string, driverVersion: string,
    hostname: string, podName: string, namespace: string, containerName: string,
    gpuInstanceId: string, gpuProfile: string)

  const NO_LABELS := DcgmLabels("", "", "", "", "", "", "", "", "", "", "")

  function KindOf(key: string): Kind {
    if key == "gpu" then Gpu
    else if key == "UUID" || key == "uuid" then Uuid
    else if key == "device" then Device
    else if key == "modelName" then ModelName
    else if key == "DCGM_FI_DRIVER_VERSION" then DriverVersion
    else if key == "Hostname" then Hostname
    else if key == "pod" then New(PodSlot)
    else if key == "namespace" then New(NamespaceSlot)
    else if key == "container" then New(ContainerSlot)
    else if key == "pod_name" then Old(PodSlot)
    else if key == "pod_namespace" then Old(NamespaceSlot)
    else if key == "container_name" then Old(ContainerSlot)
    else if key == "GPU_I_ID" then InstanceId
    else if key == "GPU_I_PROFILE" then Profile
    else Other
  }

  function Attribute(l: DcgmLabels, slot: Slot): string {
    match slot
    case PodSlot => l.podName
    case NamespaceSlot => l.namespace
    case ContainerSlot => l.containerName
  }

  function SetAttribute(l: DcgmLabels, slot: Slot, value: string): DcgmLabels {
    match slot
    case PodSlot => l.(podName := value)
    case NamespaceSlot => l.(namespace := value)
    case ContainerSlot => l.(containerName := value)
  }

  /** What one parsed label does to the record: new-style labels always overwrite,
      old-style labels only fill an attribute that is still empty. */
  function Assign(l: DcgmLabels, kind: Kind, value: string): DcgmLabels {
    match kind
    case Gpu => l.(gpu := value)
    case Uuid => l.(uuid := value)
    case Device => l.(device := value)
    case ModelName => l.(modelName := value)
    case DriverVersion => l.(driverVersion := value)
    case Hostname => l.(hostname := value)
    case New(slot) => SetAttribute(l, slot, value)
    case Old(slot) => if Attribute(l, slot) == "" then SetAttribute(l, slot, value) else l
    case InstanceId => l.(gpuInstanceId := value)
    case Profile => l.(gpuProfile := value)
    case Other => l
  }

  /** The record after assigning the labels from left to right. */
  function Normalise(labels: seq<Label>): DcgmLabels {
    NormaliseBy(KindOf, labels)
  }

  /** The record read off the labels as a set: no label's position matters to it
      as long as labels of one kind agree. */
  function Declared(labels: seq<Label>): DcgmLabels {
    DeclaredBy(KindOf, labels)
  }

  /** No two labels conflict: no empty new-style value beside a non-empty old-style one
      for the same attribute, and no two spellings of UUID with different values. */
  ghost predicate OrderSafe(labels: seq<Label>) {
    OrderSafeBy(KindOf, labels)
  }

  // The proofs take the classification of names as a parameter `k`: all they use of it
  // is that a kind other than Uuid and Other belongs to one name.

  function NormaliseBy(k: string -> Kind, labels: seq<Label>): DcgmLabels {
    if labels == [] then NO_LABELS
    else
      var x := labels[|labels| - 1];
      Assign(NormaliseBy(k, labels[..|labels| - 1]), k(x.key), x.value)
  }

  lemma NormaliseStep(labels: seq<Label>, x: Label)
    ensures Normalise(labels + [x]) == Assign(Normalise(labels), KindOf(x.key), x.value)
  {
    assert (labels + [x])[..|labels|] == labels;
  }

  /** The value of the last label of the given kind. */
  function Lookup(k: string -> Kind, labels: seq<Label>, kind: Kind): Option<string> {
    if labels == [] then None
    else if k(labels[|labels| - 1].key) == kind then Some(labels[|labels| - 1].value)
    else Lookup(k, labels[..|labels| - 1], kind)
  }

  /** The new-style value if the new-style label is present, else the old-style one. */
  function Preferred(k: string -> Kind, labels: seq<Label>, slot: Slot): string {
    match Lookup(k, labels, New(slot))
    case Some(v) => v
    case None => Lookup(k, labels, Old(slot)).Or("")
  }

  function DeclaredBy(k: string -> Kind, labels: seq<Label>): DcgmLabels {
    DcgmLabels(
      Lookup(k, labels, Gpu).Or(""), Lookup(k, labels, Uuid).Or(""),
      Lookup(k, labels, Device).Or(""), Lookup(k, labels, ModelName).Or(""),
      Lookup(k, labels, DriverVersion).Or(""), Lookup(k, labels, Hostname).Or(""),
      Preferred(k, labels, PodSlot), Preferred(k, labels, NamespaceSlot),
      Preferred(k, labels, ContainerSlot),
      Lookup(k, labels, InstanceId).Or(""), Lookup(k, labels, Profile).Or(""))
  }

  function Names(labels: seq<Label>): set<string> {
    set x | x in labels :: x.key
  }

  /** No label name occurs twice. */
  predicate DistinctNames(labels: seq<Label>) {
    |Names(labels)| == |labels|
  }

  predicate Conflict(k: string -> Kind, x: Label, y: Label) {
    || (k(x.key).New? && k(y.key) == Old(k(x.key).slot) && x.value == "" && y.value != "")
    || (k(x.key) == Uuid && k(y.key) == Uuid && x.value != y.value)
  }

  ghost predicate OrderSafeBy(k: string -> Kind, labels: seq<Label>) {
    forall x, y :: x in labels && y in labels ==> !Conflict(k, x, y)
  }

  ghost predicate KindsAgree(k: string -> Kind, labels: seq<Label>) {
    forall x, y :: x in labels && y in labels ==>
      k(x.key) == k(y.key) && !k(x.key).Other? ==> x.value == y.value
  }

  ghost predicate OneNamePerKind(k: string -> Kind) {
    forall a, b :: k(a) == k(b) && k(a) != Uuid && k(a) != Other ==> a == b
  }

  /** The one name of a kind that has only one. */
  function NameOf(kind: Kind): string {
    match kind
    case Gpu => "gpu"
    case Device => "device"
    case ModelName => "modelName"
    case DriverVersion => "DCGM_FI_DRIVER_VERSION"
    case Hostname => "Hostname"
    case New(slot) => if slot.PodSlot? then "pod" else if slot.NamespaceSlot? then "namespace" else "container"
    case Old(slot) =>
      if slot.PodSlot? then "pod_name" else if slot.NamespaceSlot? then "pod_namespace" else "container_name"
    case InstanceId => "GPU_I_ID"
    case Profile => "GPU_I_PROFILE"
    case _ => ""
  }

  lemma NameOfKind(key: string)
    ensures KindOf(key) != Uuid && KindOf(key) != Other ==> NameOf(KindOf(key)) == key
  {
  }

  lemma KindOfNames()
    ensures OneNamePerKind(KindOf)
  {
    forall a, b | KindOf(a) == KindOf(b) && KindOf(a) != Uuid && KindOf(a) != Other
      ensures a == b
    {
      NameOfKind(a);
      NameOfKind(b);
    }
  }

  lemma {:induction false} NamesBound(labels: seq<Label>)
    ensures |Names(labels)| <= |labels|
  {
    if labels != [] {
      var p := labels[..|labels| - 1];
      NamesBound(p);
      assert labels == p + [labels[|labels| - 1]];
      assert Names(labels) == Names(p) + {labels[|labels| - 1].key};
    } else {
      assert Names(labels) == {};
    }
  }

  lemma {:induction false} DistinctPrefix(labels: seq<Label>)
    requires labels != [] && DistinctNames(labels)
    ensures DistinctNames(labels[..|labels| - 1])
    ensures labels[|labels| - 1].key !in Names(labels[..|labels| - 1])
  {
    var p := labels[..|labels| - 1];
    NamesBound(p);
    assert labels == p + [labels[|labels| - 1]];
    assert Names(labels) == Names(p) + {labels[|labels| - 1].key};
  }

  lemma {:induction false} DistinctIndices(labels: seq<Label>, i: nat, j: nat)
    requires DistinctNames(labels) && i < |labels| && j < |labels| && i != j
    ensures labels[i].key != labels[j].key
  {
    DistinctPrefix(labels);
    var p := labels[..|labels| - 1];
    if i < |p| && j < |p| {
      DistinctIndices(p, i, j);
      assert p[i] == labels[i] && p[j] == labels[j];
    } else {
      assert p[if i < j then i else j] in p;
    }
  }

  lemma {:induction false} SafeKindsAgree(k: string -> Kind, labels: seq<Label>)
    requires OneNamePerKind(k)
    requires DistinctNames(labels) && OrderSafeBy(k, labels)
    ensures KindsAgree(k, labels)
  {
    forall x, y | x in labels && y in labels && k(x.key) == k(y.key) && !k(x.key).Other?
      ensures x.value == y.value
    {
      assert !Conflict(k, x, y);
      var i :| 0 <= i < |labels| && labels[i] == x;
      var j :| 0 <= j < |labels| && labels[j] == y;
      if i != j {
        DistinctIndices(labels, i, j);
      }
    }
  }

  lemma {:induction false} LookupMember(k: string -> Kind, labels: seq<Label>, kind: Kind)
    ensures Lookup(k, labels, kind).Some? <==> exists x :: x in labels && k(x.key) == kind
    ensures Lookup(k, labels, kind).Some? ==>
              exists x :: x in labels && k(x.key) == kind && x.value == Lookup(k, labels, kind).value
  {
    if labels != [] {
      var last := labels[|labels| - 1];
      LookupMember(k, labels[..|labels| - 1], kind);
      assert labels == labels[..|labels| - 1] + [last];
    }
  }

  /** When labels of one kind agree and no empty new-style value meets a non-empty
      old-style one, left-to-right assignment computes the declared record. */
  lemma {:induction false} NormaliseIsDeclared(k: string -> Kind, labels: seq<Label>)
    requires KindsAgree(k, labels) && OrderSafeBy(k, labels)
    ensures NormaliseBy(k, labels) == DeclaredBy(k, labels)
  {
    if labels != [] {
      var p := labels[..|labels| - 1];
      var x := labels[|labels| - 1];
      assert labels == p + [x];
      assert forall y :: y in p ==> y in labels;
      NormaliseIsDeclared(k, p);
      if k(x.key).Old? {
        OldLabelFills(k, p, x);
      }
      DeclaredStep(k, p, x);
    }
  }

  lemma LookupStep(k: string -> Kind, p: seq<Label>, x: Label, kind: Kind)
    ensures Lookup(k, p + [x], kind) == if k(x.key) == kind then Some(x.value) else Lookup(k, p, kind)
  {
    assert (p + [x])[..|p + [x]| - 1] == p;
  }

  lemma {:induction false} DeclaredStep(k: string -> Kind, p: seq<Label>, x: Label)
    requires k(x.key).Old? ==>
               Preferred(k, p + [x], k(x.key).slot) ==
               var before := Preferred(k, p, k(x.key).slot);
               if before == "" then x.value else before
    ensures DeclaredBy(k, p + [x]) == Assign(DeclaredBy(k, p), k(x.key), x.value)
  {
    var l, l' := DeclaredBy(k, p), DeclaredBy(k, p + [x]);
    assert DeviceAssigned(l, l', k(x.key), x.value) by { DeviceStep(k, p, x); }
    assert HostAssigned(l, l', k(x.key), x.value) by { HostStep(k, p, x); }
    assert SlotsAssigned(l, l', k(x.key), x.value) by { SlotsStep(k, p, x); }
    AssignedFields(l, l', k(x.key), x.value);
  }

  predicate DeviceAssigned(l: DcgmLabels, l': DcgmLabels, kind: Kind, value: string) {
    && l'.gpu == (if kind == Gpu then value else l.gpu)
    && l'.uuid == (if kind == Uuid then value else l.uuid)
    && l'.device == (if kind == Device then value else l.device)
    && l'.modelName == (if kind == ModelName then value else l.modelName)
  }

  predicate HostAssigned(l: DcgmLabels, l': DcgmLabels, kind: Kind, value: string) {
    && l'.driverVersion == (if kind == DriverVersion then value else l.driverVersion)
    && l'.hostname == (if kind == Hostname then value else l.hostname)
    && l'.gpuInstanceId == (if kind == InstanceId then value else l.gpuInstanceId)
    && l'.gpuProfile == (if kind == Profile then value else l.gpuProfile)
  }

  predicate SlotsAssigned(l: DcgmLabels, l': DcgmLabels, kind: Kind, value: string) {
    && l'.podName == AssignedSlot(l.podName, kind, PodSlot, value)
    && l'.namespace == AssignedSlot(l.namespace, kind, NamespaceSlot, value)
    && l'.containerName == AssignedSlot(l.containerName, kind, ContainerSlot, value)
  }

  lemma DeviceStep(k: string -> Kind, p: seq<Label>, x: Label)
    ensures DeviceAssigned(DeclaredBy(k, p), DeclaredBy(k, p + [x]), k(x.key), x.value)
  {
    LookupStep(k, p, x, Gpu);
    LookupStep(k, p, x, Uuid);
    LookupStep(k, p, x, Device);
    LookupStep(k, p, x, ModelName);
  }

  lemma HostStep(k: string -> Kind, p: seq<Label>, x: Label)
    ensures HostAssigned(DeclaredBy(k, p), DeclaredBy(k, p + [x]), k(x.key), x.value)
  {
    LookupStep(k, p, x, DriverVersion);
    LookupStep(k, p, x, Hostname);
    LookupStep(k, p, x, InstanceId);
    LookupStep(k, p, x, Profile);
  }

  lemma SlotsStep(k: string -> Kind, p: seq<Label>, x: Label)
    requires k(x.key).Old? ==>
               Preferred(k, p + [x], k(x.key).slot) ==
               var before := Preferred(k, p, k(x.key).slot);
               if before == "" then x.value else before
    ensures SlotsAssigned(DeclaredBy(k, p), DeclaredBy(k, p + [x]), k(x.key), x.value)
  {
    SlotStep(k, p, x, PodSlot);
    SlotStep(k, p, x, NamespaceSlot);
    SlotStep(k, p, x, ContainerSlot);
  }

  /** An assignment is known by its fields. */
  lemma AssignedFields(l: DcgmLabels, l': DcgmLabels, kind: Kind, value: string)
    requires DeviceAssigned(l, l', kind, value) && HostAssigned(l, l', kind, value)
    requires SlotsAssigned(l, l', kind, value)
    ensures l' == Assign(l, kind, value)
  {
  }

  function AssignedSlot(before: string, kind: Kind, slot: Slot, value: string): string {
    if kind == New(slot) then value
    else if kind == Old(slot) && before == "" then value
    else before
  }

  /** The attribute of one slot follows one more assignment. */
  lemma SlotStep(k: string -> Kind, p: seq<Label>, x: Label, slot: Slot)
    requires k(x.key) == Old(slot) ==>
               Preferred(k, p + [x], slot) ==
               var before := Preferred(k, p, slot); if before == "" then x.value else before
    ensures Preferred(k, p + [x], slot) == AssignedSlot(Preferred(k, p, slot), k(x.key), slot, x.value)
  {
    PreferredStep(k, p, x, slot);
  }

  lemma PreferredStep(k: string -> Kind, p: seq<Label>, x: Label, slot: Slot)
    ensures k(x.key) == New(slot) ==> Preferred(k, p + [x], slot) == x.value
    ensures k(x.key) != New(slot) && k(x.key) != Old(slot) ==>
              Preferred(k, p + [x], slot) == Preferred(k, p, slot)
  {
    LookupStep(k, p, x, New(slot));
    LookupStep(k, p, x, Old(slot));
  }

  lemma {:induction false} OldLabelFills(k: string -> Kind, p: seq<Label>, x: Label)
    requires KindsAgree(k, p + [x]) && OrderSafeBy(k, p + [x]) && k(x.key).Old?
    ensures Preferred(k, p + [x], k(x.key).slot) ==
            var before := Preferred(k, p, k(x.key).slot);
            if before == "" then x.value else before
  {
    var slot := k(x.key).slot;
    var labels := p + [x];
    assert labels[..|labels| - 1] == p && x in labels;
    LookupMember(k, p, New(slot));
    LookupMember(k, p, Old(slot));
    var n, o := Lookup(k, p, New(slot)), Lookup(k, p, Old(slot));
    if n.Some? {
      var y :| y in p && k(y.key) == New(slot) && y.value == n.value;
      assert y in labels && !Conflict(k, y, x);
    } else if o.Some? {
      var y :| y in p && k(y.key) == Old(slot) && y.value == o.value;
      assert y in labels;
    }
  }

  lemma {:induction false} LookupPermutation(k: string -> Kind, a: seq<Label>, b: seq<Label>, kind: Kind)
    requires forall x :: x in a <==> x in b
    requires KindsAgree(k, a) && kind != Other
    ensures Lookup(k, a, kind) == Lookup(k, b, kind)
  {
    LookupMember(k, a, kind);
    LookupMember(k, b, kind);
  }

  lemma {:induction false} DeclaredPermutation(k: string -> Kind, a: seq<Label>, b: seq<Label>)
    requires multiset(a) == multiset(b)
    requires KindsAgree(k, a)
    ensures KindsAgree(k, b) && DeclaredBy(k, a) == DeclaredBy(k, b)
    ensures OrderSafeBy(k, a) == OrderSafeBy(k, b)
  {
    SameMembers(a, b);
    forall kind: Kind | kind != Other
      ensures Lookup(k, a, kind) == Lookup(k, b, kind)
    {
      LookupPermutation(k, a, b, kind);
    }
  }

  lemma SameMembers(a: seq<Label>, b: seq<Label>)
    requires multiset(a) == multiset(b)
    ensures forall x :: x in a <==> x in b
  {
    assert forall x :: x in a <==> x in multiset(a);
    assert forall x :: x in b <==> x in multiset(b);
  }

  /** One attribute alone, assigned from left to right. */
  function SlotValue(k: string -> Kind, labels: seq<Label>, slot: Slot): string {
    if labels == [] then ""
    else
      var before := SlotValue(k, labels[..|labels| - 1], slot);
      var x := labels[|labels| - 1];
      if k(x.key) == New(slot) then x.value
      else if k(x.key) == Old(slot) && before == "" then x.value
      else before
  }

  lemma {:induction false} SlotOfNormalise(k: string -> Kind, labels: seq<Label>, slot: Slot)
    ensures Attribute(NormaliseBy(k, labels), slot) == SlotValue(k, labels, slot)
  {
    if labels != [] {
      SlotOfNormalise(k, labels[..|labels| - 1], slot);
    }
  }

  /** With an empty new-style label at `i` and an old-style label at `j`, the old value
      survives exactly when it comes second. */
  lemma {:induction false} SlotByPosition(
    k: string -> Kind, labels: seq<Label>, slot: Slot, i: nat, j: nat, n: nat)
    requires OneNamePerKind(k)
    requires DistinctNames(labels) && i < |labels| && j < |labels| && n <= |labels|
    requires k(labels[i].key) == New(slot) && labels[i].value == ""
    requires k(labels[j].key) == Old(slot)
    ensures SlotValue(k, labels[..n], slot) ==
            if j < n && (i < j || n <= i) then labels[j].value else ""
  {
    if n > 0 {
      SlotByPosition(k, labels, slot, i, j, n - 1);
      assert labels[..n][..n - 1] == labels[..n - 1];
      if n - 1 != i { DistinctIndices(labels, n - 1, i); }
      if n - 1 != j { DistinctIndices(labels, n - 1, j); }
    }
  }

  /** With both spellings of the UUID label present, the later one wins. */
  lemma {:induction false} UuidByPosition(k: string -> Kind, labels: seq<Label>, i: nat, j: nat, n: nat)
    requires i < j < n <= |labels|
    requires k(labels[i].key) == Uuid && k(labels[j].key) == Uuid
    requires forall m :: 0 <= m < |labels| && m != i && m != j ==> k(labels[m].key) != Uuid
    ensures NormaliseBy(k, labels[..n]).uuid == labels[j].value
  {
    assert labels[..n][..n - 1] == labels[..n - 1];
    if n - 1 > j {
      UuidByPosition(k, labels, i, j, n - 1);
    }
  }

  /** At most two names have the kind Uuid. */
  lemma TwoUuidSpellings(labels: seq<Label>, i: nat, j: nat)
    requires DistinctNames(labels) && i < |labels| && j < |labels| && i != j
    requires KindOf(labels[i].key) == Uuid && KindOf(labels[j].key) == Uuid
    ensures forall m :: 0 <= m < |labels| && m != i && m != j ==> KindOf(labels[m].key) != Uuid
  {
    DistinctIndices(labels, i, j);
    forall m | 0 <= m < |labels| && m != i && m != j
      ensures KindOf(labels[m].key) != Uuid
    {
      DistinctIndices(labels, i, m);
      DistinctIndices(labels, j, m);
    }
  }

  function Swap(labels: seq<Label>, i: nat, j: nat): seq<Label>
    requires i < |labels| && j < |labels|
  {
    labels[i := labels[j]][j := labels[i]]
  }

  lemma {:induction false} SwapPermutes(labels: seq<Label>, i: nat, j: nat)
    requires i < |labels| && j < |labels| && i != j
    ensures multiset(Swap(labels, i, j)) == multiset(labels)
    ensures DistinctNames(labels) ==> DistinctNames(Swap(labels, i, j))
  {
    var s := Swap(labels, i, j);
    assert multiset(s) == multiset(labels);
    SameMembers(s, labels);
    assert Names(s) == Names(labels);
  }

  /** An empty new-style value and a non-empty old-style one: their order decides. */
  lemma {:induction false} SlotConflictBreaksOrder(
    k: string -> Kind, labels: seq<Label>, slot: Slot, i: nat, j: nat)
    requires OneNamePerKind(k)
    requires DistinctNames(labels) && i < |labels| && j < |labels|
    requires k(labels[i].key) == New(slot) && k(labels[j].key) == Old(slot)
    requires labels[i].value == "" && labels[j].value != ""
    ensures NormaliseBy(k, Swap(labels, i, j)) != NormaliseBy(k, labels)
  {
    var s := Swap(labels, i, j);
    SwapPermutes(labels, i, j);
    assert labels[..|labels|] == labels && s[..|s|] == s;
    SlotByPosition(k, labels, slot, i, j, |labels|);
    SlotByPosition(k, s, slot, j, i, |s|);
    SlotOfNormalise(k, labels, slot);
    SlotOfNormalise(k, s, slot);
  }

  /** Two spellings of UUID with different values: their order decides. */
  lemma {:induction false} UuidConflictBreaksOrder(labels: seq<Label>, i: nat, j: nat)
    requires DistinctNames(labels) && i < j < |labels|
    requires KindOf(labels[i].key) == Uuid && KindOf(labels[j].key) == Uuid
    requires labels[i].value != labels[j].value
    ensures Normalise(Swap(labels, i, j)) != Normalise(labels)
  {
    var s := Swap(labels, i, j);
    SwapPermutes(labels, i, j);
    TwoUuidSpellings(labels, i, j);
    TwoUuidSpellings(s, i, j);
    assert labels[..|labels|] == labels && s[..|s|] == s;
    UuidByPosition(KindOf, labels, i, j, |labels|);
    UuidByPosition(KindOf, s, i, j, |s|);
  }

  /** Unless no two labels conflict, some permutation changes the record. */
  lemma {:induction false} ConflictBreaksOrder(labels: seq<Label>) returns (p: seq<Label>)
    requires DistinctNames(labels) && !OrderSafe(labels)
    ensures multiset(p) == multiset(labels) && Normalise(p) != Normalise(labels)
  {
    KindOfNames();
    var x, y :| x in labels && y in labels && Conflict(KindOf, x, y);
    var i :| 0 <= i < |labels| && labels[i] == x;
    var j :| 0 <= j < |labels| && labels[j] == y;
    p := Swap(labels, i, j);
    SwapPermutes(labels, i, j);
    if KindOf(x.key).New? {
      SlotConflictBreaksOrder(KindOf, labels, KindOf(x.key).slot, i, j);
    } else if i < j {
      UuidConflictBreaksOrder(labels, i, j);
    } else {
      UuidConflictBreaksOrder(labels, j, i);
      assert Swap(labels, j, i) == p;
    }
  }

  /** The exact condition for the normalisation to ignore label order: for labels with
      distinct names, every permutation gives the same record if and only if no two
      labels conflict, and that record is then the declared one. */
  lemma {:induction false} OrderFreeIff(labels: seq<Label>)
    requires DistinctNames(labels)
    ensures OrderSafe(labels) <==>
            (forall p :: multiset(p) == multiset(labels) ==> Normalise(p) == Normalise(labels))
    ensures OrderSafe(labels) ==> Normalise(labels) == Declared(labels)
  {
    if OrderSafe(labels) {
      KindOfNames();
      SafeKindsAgree(KindOf, labels);
      NormaliseIsDeclared(KindOf, labels);
      forall p | multiset(p) == multiset(labels)
        ensures Normalise(p) == Normalise(labels)
      {
        DeclaredPermutation(KindOf, labels, p);
        NormaliseIsDeclared(KindOf, p);
      }
    } else {
      var p := ConflictBreaksOrder(labels);
    }
  }

  /** Both kinds of conflict occur: an empty new-style pod label and an old-style one, and two
      spellings of UUID. */
  lemma ConflictExamples()
    ensures var labels := [Label("pod", ""), Label("pod_name", "x")];
            && DistinctNames(labels) && !OrderSafe(labels)
            && Normalise(labels).podName == "x" && Normalise(Swap(labels, 0, 1)).podName == ""
    ensures var labels := [Label("UUID", "a"), Label("uuid", "b")];
            && DistinctNames(labels) && !OrderSafe(labels)
            && Normalise(labels).uuid == "b" && Normalise(Swap(labels, 0, 1)).uuid == "a"
  {
    PairExample(Label("pod", ""), Label("pod_name", "x"));
    PairExample(Label("UUID", "a"), Label("uuid", "b"));
    assert KindOf("pod") == New(PodSlot) && KindOf("pod_name") == Old(PodSlot);
    assert KindOf("UUID") == Uuid && KindOf("uuid") == Uuid;
  }

  lemma PairRecord(x: Label, y: Label)
    ensures Normalise([x, y]) == Assign(Assign(NO_LABELS, KindOf(x.key), x.value), KindOf(y.key), y.value)
  {
    NormaliseStep([], x);
    NormaliseStep([x], y);
    assert [] + [x] == [x] && [x] + [y] == [x, y];
  }

  lemma PairExample(x: Label, y: Label)
    requires x.key != y.key && Conflict(KindOf, x, y)
    ensures DistinctNames([x, y]) && !OrderSafe([x, y])
    ensures Normalise([x, y]) == Assign(Assign(NO_LABELS, KindOf(x.key), x.value), KindOf(y.key), y.value)
    ensures Normalise(Swap([x, y], 0, 1)) == Assign(Assign(NO_LABELS, KindOf(y.key), y.value), KindOf(x.key), x.value)
  {
    assert Names([x, y]) == {x.key, y.key};
    assert x in [x, y] && y in [x, y];
    assert Swap([x, y], 0, 1) == [y, x];
    PairRecord(x, y);
    PairRecord(y, x);
  }
}
