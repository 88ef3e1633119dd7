/** The parts of a migration task (`task.Execution`) that the load-balancer strategy reads. */
module Task {

  /** Opaque handle to a Kubernetes client; clients are only passed along, never inspected. */
  datatype KubeClient = KubeClient(handle: nat)

  /** Opaque handle to the chart that both endpoints are installed from. */
  datatype Chart = Chart(handle: nat)

  /** A persistent volume claim: its namespace and its name. */
  datatype Claim = Claim(namespace: string, name: string)

  datatype ClusterClient = ClusterClient(kubeClient: KubeClient)

  /** Source or destination side: the claim and the client of the cluster holding it. */
  datatype PvcInfo = PvcInfo(claim: Claim, clusterClient: ClusterClient)

  /** The migration options the strategy consults. */
  datatype Options = Options(
    keyAlgorithm: string,
    noProgressBar: bool,
    sourceMountReadOnly: bool,
    deleteExtraneousFiles: bool,
    noChown: bool)

  /** A side of the migration as the user asked for it: the path inside the volume. */
  datatype Location = Location(path: string)

  datatype Migration = Migration(source: Location, dest: Location, options: Options)

  datatype Task = Task(sourceInfo: PvcInfo, destInfo: PvcInfo, migration: Migration, chart: Chart)

  /** One execution of a task: its identifier and the Helm release name it installs under. */
  datatype Execution = Execution(id: string, helmReleaseName: string, task: Task)
}
