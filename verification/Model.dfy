/** The parts of a cluster snapshot that the merges, the enrichers and the summary read
    or write (pkg/model). Absent pointers are None; float64 is `real`. */
module Model {
  import opened Prelude

  const JOB_KIND := "Job"
  const CRON_JOB_KIND := "CronJob"

  /** The GPU fields of a node; all absent when the node enters the pipeline. */
  datatype NodeGpu = NodeGpu(
    model: string, driver: string, mig: bool,
    utilization: Option<real>, tensorActive: Option<real>, memoryUtil: Option<real>,
    memoryUsed: Option<int>, memoryTotal: Option<int>,
    temperature: Option<real>, power: Option<real>,
    devices: seq<DeviceInfo>)

  datatype DeviceInfo = DeviceInfo(
    uuid: string, index: string, model: string, migProfile: string, migInstance: string,
    utilization: Option<real>, tensorActive: Option<real>, memoryUtil: Option<real>,
    memoryUsed: Option<int>, memoryTotal: Option<int>,
    temperature: Option<real>, power: Option<real>)

  datatype Node = Node(
    name: string,
    cpuCapacity: real, cpuAllocatable: real, memoryCapacity: int, memoryAllocatable: int,
    gpuCapacity: int,
    cpuUsage: Option<real>, memoryUsage: Option<int>,
    gpu: NodeGpu)

  datatype Container = Container(
    name: string,
    cpuRequest: real, memoryRequest: int, cpuLimit: real, memoryLimit: int, gpuRequest: int,
    cpuUsage: Option<real>, memoryUsage: Option<int>,
    gpuUtilization: Option<real>, gpuMemoryUsed: Option<int>)

  datatype Pod = Pod(
    name: string, namespace: string, nodeName: string, phase: string,
    ownerKind: string, ownerName: string, ownerUid: string,
    containers: seq<Container>)

  /** A Deployment, StatefulSet or DaemonSet with its computed totals. */
  datatype Workload = Workload(
    name: string, namespace: string,
    cpuRequest: real, memoryRequest: int, cpuLimit: real, memoryLimit: int,
    cpuUsage: Option<real>, memoryUsage: Option<int>)

  datatype ContainerSpec = ContainerSpec(cpuRequest: real, memoryRequest: int)

  datatype Job = Job(
    name: string, namespace: string, ownerCronJob: string, specs: seq<ContainerSpec>,
    cpuRequest: real, memoryRequest: int, cpuUsage: Option<real>, memoryUsage: Option<int>)

  datatype CronJob = CronJob(name: string, namespace: string, uid: string)

  datatype ReplicaSet = ReplicaSet(
    name: string, namespace: string, ownerKind: string, ownerName: string, ownerUid: string)

  datatype NodeMetrics = NodeMetrics(name: string, cpuUsage: real, memoryUsage: int)
  datatype ContainerMetrics = ContainerMetrics(name: string, cpuUsage: real, memoryUsage: int)
  datatype PodMetrics = PodMetrics(name: string, namespace: string, containers: seq<ContainerMetrics>)

  datatype Summary = Summary(
    nodeCount: int, podCount: int,
    runningPods: int, pendingPods: int, failedPods: int, succeededPods: int,
    deploymentCount: int, statefulSetCount: int, daemonSetCount: int, jobCount: int, cronJobCount: int,
    containerCount: int,
    cpuCapacity: real, cpuAllocatable: real, memoryCapacity: int, memoryAllocatable: int, gpuCapacity: int,
    cpuRequested: real, memoryRequested: int, gpuRequested: int,
    cpuUsage: Option<real>, memoryUsage: Option<int>,
    gpuUsage: Option<real>, gpuTensorActive: Option<real>, gpuMemoryUtil: Option<real>,
    gpuMemoryUsed: Option<int>, gpuMemoryTotal: Option<int>,
    metricsAvailable: bool, gpuMetricsAvailable: bool)

  /** The snapshot under construction: each step of the build rewrites its slices. */
  class ClusterSnapshot {
    var nodes: seq<Node>
    var pods: seq<Pod>
    var deployments: seq<Workload>
    var statefulSets: seq<Workload>
    var daemonSets: seq<Workload>
    var jobs: seq<Job>
    var cronJobs: seq<CronJob>

    constructor (nodes: seq<Node>, pods: seq<Pod>, deployments: seq<Workload>,
      statefulSets: seq<Workload>, daemonSets: seq<Workload>, jobs: seq<Job>, cronJobs: seq<CronJob>)
      ensures this.nodes == nodes && this.pods == pods && this.deployments == deployments
      ensures this.statefulSets == statefulSets && this.daemonSets == daemonSets
      ensures this.jobs == jobs && this.cronJobs == cronJobs
    {
      this.nodes, this.pods, this.deployments := nodes, pods, deployments;
      this.statefulSets, this.daemonSets, this.jobs, this.cronJobs := statefulSets, daemonSets, jobs, cronJobs;
    }
  }

  /** The names occurring in a list of nodes. */
  function NodeNames(nodes: seq<Node>): set<string> {
    set n | n in nodes :: n.name
  }

  ghost predicate DistinctNodeNames(nodes: seq<Node>) {
    forall i, j :: 0 <= i < j < |nodes| ==> nodes[i].name != nodes[j].name
  }
}
