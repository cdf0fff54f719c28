/** The record of a label list, field by field and by the labels' own names
    (internal/collector/gpu/parser.go, parseLabels): no assumption on the list. */
module LabelFields {
  import opened LabelSchema

  predicate Named(labels: seq<Label>, names: set<string>, i: int) {
    0 <= i < |labels| && labels[i].key in names
  }

  ghost predicate LastNamed(labels: seq<Label>, names: set<string>, i: int) {
    Named(labels, names, i) && forall j :: i < j < |labels| ==> !Named(labels, names, j)
  }

  /** The value of the last label with one of the names, or nothing. */
  ghost predicate FieldIs(labels: seq<Label>, names: set<string>, v: string) {
    && (forall i :: LastNamed(labels, names, i) ==> v == labels[i].value)
    && ((forall i :: !Named(labels, names, i)) ==> v == "")
  }

  /** The first non-empty value with the name from `start` on, or nothing. */
  ghost predicate FirstFilled(labels: seq<Label>, name: string, start: int, v: string) {
    if v == "" then forall j :: start <= j && Named(labels, {name}, j) ==> labels[j].value == ""
    else
      exists j :: start <= j && Named(labels, {name}, j) && labels[j].value == v
        && forall m :: start <= m < j && Named(labels, {name}, m) ==> labels[m].value == ""
  }

  /** A non-empty last new-style value, else the first old-style value filled in after it (or
      from the beginning if there is no new-style label). */
  ghost predicate SlotIs(labels: seq<Label>, newName: string, oldName: string, v: string) {
    && (forall i :: LastNamed(labels, {newName}, i) ==>
          if labels[i].value != "" then v == labels[i].value else FirstFilled(labels, oldName, i + 1, v))
    && ((forall i :: !Named(labels, {newName}, i)) ==> FirstFilled(labels, oldName, 0, v))
  }

  lemma NamedStep(p: seq<Label>, x: Label, names: set<string>, i: int)
    ensures Named(p + [x], names, i) <==> Named(p, names, i) || (i == |p| && x.key in names)
  {
  }

  lemma LastNamedStep(p: seq<Label>, x: Label, names: set<string>, i: int)
    ensures LastNamed(p + [x], names, i) <==> if x.key in names then i == |p| else LastNamed(p, names, i)
  {
    forall j
      ensures Named(p + [x], names, j) <==> Named(p, names, j) || (j == |p| && x.key in names)
    {
      NamedStep(p, x, names, j);
    }
    assert x.key in names ==> Named(p + [x], names, |p|);
  }

  lemma FieldStep(p: seq<Label>, x: Label, names: set<string>, v: string)
    requires FieldIs(p, names, v)
    ensures FieldIs(p + [x], names, if x.key in names then x.value else v)
  {
    forall i
      ensures LastNamed(p + [x], names, i) <==> if x.key in names then i == |p| else LastNamed(p, names, i)
      ensures Named(p + [x], names, i) <==> Named(p, names, i) || (i == |p| && x.key in names)
    {
      LastNamedStep(p, x, names, i);
      NamedStep(p, x, names, i);
    }
    assert x.key in names ==> Named(p + [x], names, |p|);
  }

  lemma FilledStep(p: seq<Label>, x: Label, name: string, start: int, v: string)
    requires FirstFilled(p, name, start, v) && start <= |p|
    ensures FirstFilled(p + [x], name, start, if x.key == name && v == "" then x.value else v)
  {
    var q := p + [x];
    assert forall j :: Named(p, {name}, j) ==> Named(q, {name}, j) && q[j] == p[j];
    assert forall j :: Named(q, {name}, j) && j != |p| ==> Named(p, {name}, j);
    if v != "" {
      var j :| start <= j && Named(p, {name}, j) && p[j].value == v
               && forall m :: start <= m < j && Named(p, {name}, m) ==> p[m].value == "";
      assert Named(q, {name}, j);
    } else if x.key == name {
      assert Named(q, {name}, |p|);
    }
  }

  lemma SlotStep(p: seq<Label>, x: Label, newName: string, oldName: string, v: string)
    requires SlotIs(p, newName, oldName, v) && newName != oldName
    ensures SlotIs(p + [x], newName, oldName,
                   if x.key == newName then x.value else if x.key == oldName && v == "" then x.value else v)
  {
    var q := p + [x];
    forall i
      ensures LastNamed(q, {newName}, i) <==> if x.key == newName then i == |p| else LastNamed(p, {newName}, i)
      ensures Named(q, {newName}, i) <==> Named(p, {newName}, i) || (i == |p| && x.key == newName)
    {
      LastNamedStep(p, x, {newName}, i);
      NamedStep(p, x, {newName}, i);
    }
    if x.key == newName {
      assert Named(q, {newName}, |p|);
      assert x.value == "" ==> FirstFilled(q, oldName, |p| + 1, "");
    } else {
      forall i | LastNamed(p, {newName}, i) && p[i].value == ""
        ensures FirstFilled(q, oldName, i + 1, if x.key == oldName && v == "" then x.value else v)
      {
        FilledStep(p, x, oldName, i + 1, v);
      }
      if forall i :: !Named(p, {newName}, i) {
        FilledStep(p, x, oldName, 0, v);
      }
    }
  }

  /** A field that one kind of label sets holds the value of the last label of that kind. */
  lemma {:induction false} FieldOfKind(
    k: string -> Kind, labels: seq<Label>, kind: Kind, names: set<string>, f: DcgmLabels -> string)
    requires forall key :: k(key) == kind <==> key in names
    requires f(NO_LABELS) == ""
    requires forall l, other, v :: f(Assign(l, other, v)) == if other == kind then v else f(l)
    ensures FieldIs(labels, names, f(NormaliseBy(k, labels)))
  {
    if labels != [] {
      var p, x := labels[..|labels| - 1], labels[|labels| - 1];
      assert labels == p + [x];
      FieldOfKind(k, p, kind, names, f);
      FieldStep(p, x, names, f(NormaliseBy(k, p)));
    }
  }

  lemma {:induction false} SlotOfNames(
    k: string -> Kind, labels: seq<Label>, slot: Slot, newName: string, oldName: string)
    requires forall key :: k(key) == New(slot) <==> key == newName
    requires forall key :: k(key) == Old(slot) <==> key == oldName
    ensures SlotIs(labels, newName, oldName, Attribute(NormaliseBy(k, labels), slot))
  {
    if labels != [] {
      var p, x := labels[..|labels| - 1], labels[|labels| - 1];
      assert labels == p + [x];
      SlotOfNames(k, p, slot, newName, oldName);
      assert k(newName) == New(slot) && k(oldName) == Old(slot);
      SlotStep(p, x, newName, oldName, Attribute(NormaliseBy(k, p), slot));
      AttributeAssigned(NormaliseBy(k, p), k(x.key), x.value, slot);
    }
  }

  lemma AttributeAssigned(l: DcgmLabels, kind: Kind, v: string, slot: Slot)
    ensures Attribute(Assign(l, kind, v), slot) ==
            if kind == New(slot) then v
            else if kind == Old(slot) && Attribute(l, slot) == "" then v else Attribute(l, slot)
  {
  }

  lemma IdentityKinds(key: string)
    ensures KindOf(key) == Gpu <==> key in {"gpu"}
    ensures KindOf(key) == Uuid <==> key in {"UUID", "uuid"}
  {
    assert KindOf("gpu") == Gpu;
    assert KindOf("UUID") == Uuid;
    assert KindOf("uuid") == Uuid;
  }

  lemma ModelKinds(key: string)
    ensures KindOf(key) == Device <==> key in {"device"}
    ensures KindOf(key) == ModelName <==> key in {"modelName"}
  {
    assert KindOf("device") == Device;
    assert KindOf("modelName") == ModelName;
  }

  lemma HostKinds(key: string)
    ensures KindOf(key) == DriverVersion <==> key in {"DCGM_FI_DRIVER_VERSION"}
    ensures KindOf(key) == Hostname <==> key in {"Hostname"}
  {
    assert KindOf("DCGM_FI_DRIVER_VERSION") == DriverVersion;
    assert KindOf("Hostname") == Hostname;
  }

  lemma InstanceKinds(key: string)
    ensures KindOf(key) == InstanceId <==> key in {"GPU_I_ID"}
    ensures KindOf(key) == Profile <==> key in {"GPU_I_PROFILE"}
  {
    assert KindOf("GPU_I_ID") == InstanceId;
    assert KindOf("GPU_I_PROFILE") == Profile;
  }

  lemma SlotKindsOfNames()
    ensures KindOf("pod") == New(PodSlot) && KindOf("pod_name") == Old(PodSlot)
    ensures KindOf("namespace") == New(NamespaceSlot) && KindOf("pod_namespace") == Old(NamespaceSlot)
    ensures KindOf("container") == New(ContainerSlot) && KindOf("container_name") == Old(ContainerSlot)
  {
  }

  lemma SlotKinds(key: string)
    ensures KindOf(key) == New(PodSlot) <==> key == "pod"
    ensures KindOf(key) == Old(PodSlot) <==> key == "pod_name"
    ensures KindOf(key) == New(NamespaceSlot) <==> key == "namespace"
    ensures KindOf(key) == Old(NamespaceSlot) <==> key == "pod_namespace"
    ensures KindOf(key) == New(ContainerSlot) <==> key == "container"
    ensures KindOf(key) == Old(ContainerSlot) <==> key == "container_name"
  {
    SlotKindsOfNames();
  }

  /** Of any list, conflicting or not: what identifies the GPU. */
  lemma IdentityFields(labels: seq<Label>)
    ensures FieldIs(labels, {"gpu"}, Normalise(labels).gpu)
    ensures FieldIs(labels, {"UUID", "uuid"}, Normalise(labels).uuid)
  {
    forall key { IdentityKinds(key); }
    FieldOfKind(KindOf, labels, Gpu, {"gpu"}, (l: DcgmLabels) => l.gpu);
    FieldOfKind(KindOf, labels, Uuid, {"UUID", "uuid"}, (l: DcgmLabels) => l.uuid);
  }

  /** The device and its model. */
  lemma ModelFields(labels: seq<Label>)
    ensures FieldIs(labels, {"device"}, Normalise(labels).device)
    ensures FieldIs(labels, {"modelName"}, Normalise(labels).modelName)
  {
    forall key { ModelKinds(key); }
    FieldOfKind(KindOf, labels, Device, {"device"}, (l: DcgmLabels) => l.device);
    FieldOfKind(KindOf, labels, ModelName, {"modelName"}, (l: DcgmLabels) => l.modelName);
  }

  /** The host and its driver. */
  lemma HostFields(labels: seq<Label>)
    ensures FieldIs(labels, {"DCGM_FI_DRIVER_VERSION"}, Normalise(labels).driverVersion)
    ensures FieldIs(labels, {"Hostname"}, Normalise(labels).hostname)
  {
    forall key { HostKinds(key); }
    FieldOfKind(KindOf, labels, DriverVersion, {"DCGM_FI_DRIVER_VERSION"}, (l: DcgmLabels) => l.driverVersion);
    FieldOfKind(KindOf, labels, Hostname, {"Hostname"}, (l: DcgmLabels) => l.hostname);
  }

  /** The MIG instance. */
  lemma InstanceFields(labels: seq<Label>)
    ensures FieldIs(labels, {"GPU_I_ID"}, Normalise(labels).gpuInstanceId)
    ensures FieldIs(labels, {"GPU_I_PROFILE"}, Normalise(labels).gpuProfile)
  {
    forall key { InstanceKinds(key); }
    FieldOfKind(KindOf, labels, InstanceId, {"GPU_I_ID"}, (l: DcgmLabels) => l.gpuInstanceId);
    FieldOfKind(KindOf, labels, Profile, {"GPU_I_PROFILE"}, (l: DcgmLabels) => l.gpuProfile);
  }

  /** The workload's names, which have a new-style and an old-style name. */
  lemma WorkloadFields(labels: seq<Label>)
    ensures SlotIs(labels, "pod", "pod_name", Normalise(labels).podName)
    ensures SlotIs(labels, "namespace", "pod_namespace", Normalise(labels).namespace)
    ensures SlotIs(labels, "container", "container_name", Normalise(labels).containerName)
  {
    forall key { SlotKinds(key); }
    SlotOfNames(KindOf, labels, PodSlot, "pod", "pod_name");
    SlotOfNames(KindOf, labels, NamespaceSlot, "namespace", "pod_namespace");
    SlotOfNames(KindOf, labels, ContainerSlot, "container", "container_name");
  }
}
