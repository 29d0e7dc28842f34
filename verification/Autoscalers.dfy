/** Building an autoscaler from any of the three API versions. */
module Autoscalers {
  import opened Collections
  import opened Keys
  import opened Workloads

  datatype Meta = Meta(apiVersion: string, kind: string, namespace: string, name: string)

  datatype Target = Target(apiVersion: string, kind: string, name: string)

  /** Only a resource metric carries the name and utilization that are read. */
  datatype Metric = ResourceMetric(name: string, averageUtilization: Option<int>) | OtherMetric

  datatype HpaObject =
    | V1(meta: Meta, target: Target, minReplicas: Option<int>, maxReplicas: int, targetCPU: Option<int>)
    | V2beta1(meta: Meta, target: Target, minReplicas: Option<int>, maxReplicas: int, metrics: seq<Metric>)
    | V2beta2(meta: Meta, target: Target, minReplicas: Option<int>, maxReplicas: int, metrics: seq<Metric>)

  function GetOr<T>(o: Option<T>, default: T): T {
    if o.Some? then o.value else default
  }

  predicate IsCpuTarget(m: Metric) {
    m.ResourceMetric? && m.name == "cpu" && m.averageUtilization.Some?
  }

  /** The last CPU target counts; without one it is 0. */
  function LastCpuTarget(metrics: seq<Metric>): int {
    if metrics == [] then 0
    else if IsCpuTarget(Last(metrics)) then Last(metrics).averageUtilization.value
    else LastCpuTarget(DropLast(metrics))
  }

  lemma {:induction false} LaterMetricsWin(metrics: seq<Metric>, i: nat)
    requires i < |metrics| && IsCpuTarget(metrics[i])
    requires forall k :: i < k < |metrics| ==> !IsCpuTarget(metrics[k])
    ensures LastCpuTarget(metrics) == metrics[i].averageUtilization.value
  {
    if i < |metrics| - 1 {
      LaterMetricsWin(DropLast(metrics), i);
    }
  }

  /** The metric at place i is a CPU target, and no later one is. */
  ghost predicate LastStated(metrics: seq<Metric>, i: int) {
    && 0 <= i < |metrics| && metrics[i].ResourceMetric? && metrics[i].name == "cpu"
    && metrics[i].averageUtilization.Some?
    && forall k :: i < k < |metrics| ==>
         metrics[k].OtherMetric? || metrics[k].name != "cpu" || metrics[k].averageUtilization.None?
  }

  /** `target` is the utilization of the last CPU target, and 0 if there is none. */
  ghost predicate CpuTargetStated(metrics: seq<Metric>, target: int) {
    && (forall i :: LastStated(metrics, i) ==> target == metrics[i].averageUtilization.value)
    && ((forall i :: !LastStated(metrics, i)) ==> target == 0)
  }

  lemma LastIsStated(metrics: seq<Metric>)
    ensures CpuTargetStated(metrics, LastCpuTarget(metrics))
  {
    forall i | LastStated(metrics, i) ensures LastCpuTarget(metrics) == metrics[i].averageUtilization.value {
      LaterMetricsWin(metrics, i);
    }
    if forall i :: !LastStated(metrics, i) {
      NoneStated(metrics, |metrics|);
      NoTarget(metrics);
    }
  }

  /** Without a last CPU target there is none at all. */
  lemma {:induction false} NoneStated(metrics: seq<Metric>, n: nat)
    requires n <= |metrics| && forall i :: !LastStated(metrics, i)
    requires forall k :: n <= k < |metrics| ==> !IsCpuTarget(metrics[k])
    ensures forall k :: 0 <= k < |metrics| ==> !IsCpuTarget(metrics[k])
  {
    if n > 0 {
      assert !LastStated(metrics, n - 1);
      NoneStated(metrics, n - 1);
    }
  }

  lemma {:induction false} NoTarget(metrics: seq<Metric>)
    requires forall k :: 0 <= k < |metrics| ==> !IsCpuTarget(metrics[k])
    ensures LastCpuTarget(metrics) == 0
  {
    if metrics != [] {
      NoTarget(DropLast(metrics));
    }
  }

  function CpuTarget(h: HpaObject): int {
    match h
    case V1(_, _, _, _, target) => GetOr(target, 0)
    case V2beta1(_, _, _, _, metrics) => LastCpuTarget(metrics)
    case V2beta2(_, _, _, _, metrics) => LastCpuTarget(metrics)
  }

  function HpaOf(h: HpaObject): HPA {
    HPA(BuildAPIVersionKindName(h.meta.apiVersion, h.meta.kind, h.meta.namespace, h.meta.name),
        BuildAPIVersionKindName(h.target.apiVersion, h.target.kind, h.meta.namespace, h.target.name),
        GetOr(h.minReplicas, 1), h.maxReplicas, CpuTarget(h))
  }

  /** The fields of the built autoscaler, told by the fields of the object. */
  method BuildHPA(h: HpaObject) returns (hpa: HPA)
    ensures hpa == HpaOf(h)
    ensures hpa.maxReplicas == h.maxReplicas
    ensures h.minReplicas.Some? ==> hpa.minReplicas == h.minReplicas.value
    ensures h.minReplicas.None? ==> hpa.minReplicas == 1
    ensures h.V1? && h.targetCPU.Some? ==> hpa.targetCPUPercentage == h.targetCPU.value
    ensures h.V1? && h.targetCPU.None? ==> hpa.targetCPUPercentage == 0
    ensures !h.V1? ==> CpuTargetStated(h.metrics, hpa.targetCPUPercentage)
    ensures hpa.apiVersionKindName != ""
    ensures Plain(h.target.apiVersion) && Plain(h.target.kind) && Plain(h.meta.namespace) ==>
              forall w: Meta :: Plain(w.apiVersion) && Plain(w.kind) && Plain(w.namespace) ==>
                var key := BuildAPIVersionKindName(w.apiVersion, w.kind, w.namespace, w.name);
                && '|' in key
                && (Names(key, hpa.targetRef)
                    <==> && w.kind == h.target.kind && w.name == h.target.name
                         && Namespace(w.namespace) == Namespace(h.meta.namespace)
                         && (h.target.apiVersion == w.apiVersion || h.target.apiVersion == ""))
  {
    if Plain(h.target.apiVersion) && Plain(h.target.kind) && Plain(h.meta.namespace) {
      forall w: Meta | Plain(w.apiVersion) && Plain(w.kind) && Plain(w.namespace)
        ensures var key := BuildAPIVersionKindName(w.apiVersion, w.kind, w.namespace, w.name);
                && '|' in key
                && (Names(key, HpaOf(h).targetRef)
                    <==> && w.kind == h.target.kind && w.name == h.target.name
                         && Namespace(w.namespace) == Namespace(h.meta.namespace)
                         && (h.target.apiVersion == w.apiVersion || h.target.apiVersion == ""))
      {
        AutoscalerResolves(h, w);
      }
    }
    if !h.V1? {
      LastIsStated(h.metrics);
    }
    match h
    case V1(_, _, _, _, _) => hpa := BuildHPAV1(h);
    case V2beta1(_, _, _, _, _) => hpa := BuildHPAV2beta1(h);
    case V2beta2(_, _, _, _, _) => hpa := BuildHPAV2beta2(h);
  }

  method FindCpuTarget(metrics: seq<Metric>) returns (targetCPUPercentage: int)
    ensures targetCPUPercentage == LastCpuTarget(metrics)
  {
    targetCPUPercentage := 0;
    for i := 0 to |metrics|
      invariant targetCPUPercentage == LastCpuTarget(metrics[..i])
    {
      DropAppended(metrics[..i], metrics[i]);
      assert metrics[..i + 1] == metrics[..i] + [metrics[i]];
      if metrics[i].ResourceMetric? {
        if metrics[i].name == "cpu" && metrics[i].averageUtilization.Some? {
          targetCPUPercentage := metrics[i].averageUtilization.value;
        }
      }
    }
    assert metrics[..|metrics|] == metrics;
  }

  method BuildHPAV2beta2(h: HpaObject) returns (hpa: HPA)
    requires h.V2beta2?
    ensures hpa == HpaOf(h)
  {
    var targetCPUPercentage := FindCpuTarget(h.metrics);
    var minReplicas := 1;
    if h.minReplicas.Some? {
      minReplicas := h.minReplicas.value;
    }
    var namespace := "default";
    if h.meta.namespace != "" {
      namespace := h.meta.namespace;
    }
    var key := FormatKey(h.meta.apiVersion, h.meta.kind, namespace, h.meta.name);
    var ref := FormatKey(h.target.apiVersion, h.target.kind, namespace, h.target.name);
    hpa := HPA(key, ref, minReplicas, h.maxReplicas, targetCPUPercentage);
  }

  method BuildHPAV2beta1(h: HpaObject) returns (hpa: HPA)
    requires h.V2beta1?
    ensures hpa == HpaOf(h)
  {
    var targetCPUPercentage := FindCpuTarget(h.metrics);
    var minReplicas := 1;
    if h.minReplicas.Some? {
      minReplicas := h.minReplicas.value;
    }
    var namespace := "default";
    if h.meta.namespace != "" {
      namespace := h.meta.namespace;
    }
    var key := FormatKey(h.meta.apiVersion, h.meta.kind, namespace, h.meta.name);
    var ref := FormatKey(h.target.apiVersion, h.target.kind, namespace, h.target.name);
    hpa := HPA(key, ref, minReplicas, h.maxReplicas, targetCPUPercentage);
  }

  /** fmt.Sprintf("%s|%s|%s|%s", ...) */
  method FormatKey(apiVersion: string, kind: string, namespace: string, name: string) returns (key: string)
    ensures key == apiVersion + "|" + (kind + "|" + (namespace + "|" + name))
  {
    key := apiVersion + "|" + kind + "|" + namespace + "|" + name;
    assert key == apiVersion + "|" + (kind + "|" + (namespace + "|" + name));
  }

  method BuildHPAV1(h: HpaObject) returns (hpa: HPA)
    requires h.V1?
    ensures hpa == HpaOf(h)
  {
    var targetCPUPercentage := 0;
    if h.targetCPU.Some? {
      targetCPUPercentage := h.targetCPU.value;
    }
    var minReplicas := 1;
    if h.minReplicas.Some? {
      minReplicas := h.minReplicas.value;
    }
    hpa := HPA(BuildAPIVersionKindName(h.meta.apiVersion, h.meta.kind, h.meta.namespace, h.meta.name),
               BuildAPIVersionKindName(h.target.apiVersion, h.target.kind, h.meta.namespace, h.target.name),
               minReplicas, h.maxReplicas, targetCPUPercentage);
  }

  predicate PlainObject(h: HpaObject) {
    && Plain(h.meta.apiVersion) && Plain(h.meta.kind) && Plain(h.meta.namespace)
    && Plain(h.target.apiVersion) && Plain(h.target.kind)
  }

  /** Objects of any two versions build the same autoscaler exactly when they
      agree in every field, a missing minimum counting as 1, a missing CPU target
      as 0, and the empty namespace as "default". */
  lemma BuiltAlikeIff(h: HpaObject, g: HpaObject)
    requires PlainObject(h) && PlainObject(g)
    ensures HpaOf(h) == HpaOf(g)
            <==> && h.meta.(namespace := Namespace(h.meta.namespace))
                    == g.meta.(namespace := Namespace(g.meta.namespace))
                 && h.target == g.target
                 && GetOr(h.minReplicas, 1) == GetOr(g.minReplicas, 1)
                 && h.maxReplicas == g.maxReplicas
                 && CpuTarget(h) == CpuTarget(g)
  {
    KeyInjective(h.meta.apiVersion, h.meta.kind, h.meta.namespace, h.meta.name,
                 g.meta.apiVersion, g.meta.kind, g.meta.namespace, g.meta.name);
    KeyInjective(h.target.apiVersion, h.target.kind, h.meta.namespace, h.target.name,
                 g.target.apiVersion, g.target.kind, g.meta.namespace, g.target.name);
  }

  /** Whatever its version, an autoscaler names a workload of '|'-free parts
      exactly when kind, namespace and name agree and the API version agrees or
      is left out; and a built autoscaler is never taken for a missing one. */
  lemma AutoscalerResolves(h: HpaObject, w: Meta)
    requires Plain(w.apiVersion) && Plain(w.kind) && Plain(w.namespace)
    requires Plain(h.target.apiVersion) && Plain(h.target.kind) && Plain(h.meta.namespace)
    ensures HpaOf(h).apiVersionKindName != ""
    ensures '|' in BuildAPIVersionKindName(w.apiVersion, w.kind, w.namespace, w.name)
    ensures Names(BuildAPIVersionKindName(w.apiVersion, w.kind, w.namespace, w.name), HpaOf(h).targetRef)
            <==> && w.kind == h.target.kind && w.name == h.target.name
                 && Namespace(w.namespace) == Namespace(h.meta.namespace)
                 && (h.target.apiVersion == w.apiVersion || h.target.apiVersion == "")
  {
    ReferenceResolves(w.apiVersion, w.kind, w.namespace, w.name,
                      h.target.apiVersion, h.target.kind, h.meta.namespace, h.target.name);
  }
}
